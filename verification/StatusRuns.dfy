/** Runs of the scheduler in which the numbers of the node agent overwrite the cache
    (pkg/scheduler/blockio/handle.go: UpdateCacheNodeStatus).

    The agent counts pods of the ledger as it reads them back from their annotations, and rounds
    differently from the scheduler.  It may miss pods; `Counting` says when it does. */
module StatusRuns {
  import opened IoTypes
  import opened Sums
  import opened DiskCache
  import opened Scheduler
  import Agreement
  import Annotation
  import Bandwidth
  import PodLists
  import SchedulerRuns

  // ---------------------------------------------------------------- requests read back from an annotation

  lemma {:induction false} EncodedDisk(rs: seq<IoRequest>, i: nat)
    requires Clean(rs) && i < |rs| && rs[i].ioType == DiskIO
    ensures var k := Annotation.KeyOf(rs[i]);
            k in Annotation.Encoded(rs) && Annotation.Encoded(rs)[k] == Annotation.AllocatedOf(rs[i])
  {
    var last := |rs| - 1;
    assert rs[i] in rs;
    if i < last {
      assert rs[..last][i] == rs[i];
      CleanPrefix(rs, last);
      EncodedDisk(rs[..last], i);
      assert rs[last] in rs;
    }
  }

  lemma CleanPrefix(rs: seq<IoRequest>, n: nat)
    requires Clean(rs) && n <= |rs|
    ensures Clean(rs[..n])
  {
  }

  /** Whatever disk request is in the annotation came from the list. */
  lemma {:induction false} EncodedFrom(rs: seq<IoRequest>, k: Annotation.Key) returns (i: nat)
    requires k in Annotation.Encoded(rs)
    ensures i < |rs| && rs[i].dev.Some? && Annotation.KeyOf(rs[i]) == k
    ensures Annotation.Encoded(rs)[k] == Annotation.AllocatedOf(rs[i])
  {
    var last := |rs| - 1;
    if rs[last].dev.Some? && Annotation.KeyOf(rs[last]) == k {
      i := last;
    } else {
      i := EncodedFrom(rs[..last], k);
      assert rs[..last][i] == rs[i];
    }
  }

  /** A disk request that is read back is one of the list's, with its bandwidths. */
  lemma BackFrom(rs: seq<IoRequest>, back: seq<IoRequest>, r: IoRequest) returns (i: nat)
    requires Clean(rs) && Annotation.Lists(back, Annotation.Encoded(rs)) && r in back && r.ioType == DiskIO
    ensures i < |rs| && rs[i].dev.Some? && r == Annotation.Normal(rs[i])
    ensures Sound(rs[i]) && Sound(r) && Charge(r) == Charge(rs[i])
  {
    i := EncodedFrom(rs, Annotation.KeyOf(r));
    assert rs[i] in rs;
  }

  lemma BackClean(rs: seq<IoRequest>, back: seq<IoRequest>)
    requires Clean(rs) && Annotation.Lists(back, Annotation.Encoded(rs))
    ensures Clean(back)
  {
    forall r | r in back && r.ioType == DiskIO
      ensures Sound(r)
    {
      var i := BackFrom(rs, back, r);
    }
    forall i, j | 0 <= i < j < |back| && back[i].ioType == DiskIO && back[j].ioType == DiskIO
      ensures back[i].dev.value.devName != back[j].dev.value.devName
    {
      assert back[i] in back && back[j] in back && back[i] != back[j];
    }
  }

  /** The annotation keeps what a pod holds on every device. */
  lemma BackHolds(rs: seq<IoRequest>, back: seq<IoRequest>, d: DevId)
    requires Clean(rs) && Annotation.Lists(back, Annotation.Encoded(rs))
    ensures Reserved(d, back) == Reserved(d, rs)
  {
    BackClean(rs, back);
    if exists j :: 0 <= j < |back| && Asks(back[j], d) {
      var j :| 0 <= j < |back| && Asks(back[j], d);
      assert back[j] in back;
      var i := BackFrom(rs, back, back[j]);
      ReservedIsCharge(d, back, j);
      ReservedIsCharge(d, rs, i);
    } else {
      ReservedNothing(d, back);
      forall i | 0 <= i < |rs|
        ensures !Asks(rs[i], d)
      {
        if Asks(rs[i], d) {
          var j := BackAsks(rs, back, i, d);
        }
      }
      ReservedNothing(d, rs);
    }
  }

  lemma BackAsks(rs: seq<IoRequest>, back: seq<IoRequest>, i: nat, d: DevId) returns (j: nat)
    requires Clean(rs) && Annotation.Lists(back, Annotation.Encoded(rs)) && i < |rs| && Asks(rs[i], d)
    ensures j < |back| && Asks(back[j], d)
  {
    EncodedDisk(rs, i);
    var r := Annotation.Normal(rs[i]);
    assert r in back;
    j :| 0 <= j < |back| && back[j] == r;
  }

  /** The agent counted pods of the ledger, each as its annotation reads. */
  ghost predicate CountsSome(counted: Pods, pods: Pods) {
    && counted.Keys <= pods.Keys
    && Agreement.Named(counted)
    && forall u <- counted :: Annotation.Lists(counted[u].requests, Annotation.Encoded(pods[u].requests))
  }

  /** The agent counted all of them. */
  ghost predicate CountsLedger(counted: Pods, pods: Pods) {
    CountsSome(counted, pods) && pods.Keys <= counted.Keys
  }

  ghost predicate AllClean(pods: Pods) {
    forall u <- pods :: Clean(pods[u].requests)
  }

  lemma {:induction false} SameLoad(counted: Pods, pods: Pods, d: DevId)
    requires AllClean(pods) && counted.Keys == pods.Keys
    requires forall u <- pods :: Annotation.Lists(counted[u].requests, Annotation.Encoded(pods[u].requests))
    ensures Load(d, counted) == Load(d, pods)
    decreases |pods|
  {
    if pods == map[] {
      assert counted == map[];
    } else {
      var u :| u in pods;
      SameLoad(counted - {u}, pods - {u}, d);
      SumWithout(pods, LoadOn(d), u);
      SumWithout(counted, LoadOn(d), u);
      BackHolds(pods[u].requests, counted[u].requests, d);
    }
  }

  // ---------------------------------------------------------------- what the agent reports

  /** What the agent computes for a device from tables that hold these pods. */
  ghost function AgentPool(rc: ResourceConfig, d: DevId, counted: Pods, actual: QoS -> Bandwidth.Workloads): Pool
    requires d in rc.devices
  {
    Agreement.Reported(Agreement.DiskOf(rc, d, PodLists.Written(rc.devices.Keys, PodLists.EventsOf(counted)), actual))
  }

  predicate SameRates(x: Pool, y: Pool) {
    x.rd == y.rd && x.wr == y.wr && x.total == y.total
  }

  /** The numbers of a device are there; -1 means that the agent has not filled them in yet. */
  predicate Has(status: Statuses, d: DevId) {
    d in status && status[d].ga.Some?
  }

  predicate Unfilled(status: Statuses, d: DevId) {
    Has(status, d) && status[d].ga.value.rd < 0.0
  }

  /** Whatever numbers the status has are the agent's; pressure may be reported as it likes. */
  ghost predicate FromAgent(status: Statuses, rc: ResourceConfig, counted: Pods, actual: QoS -> Bandwidth.Workloads) {
    forall d <- rc.devices | Has(status, d) && !Unfilled(status, d) ::
      SameRates(status[d].ga.value, AgentPool(rc, d, counted, actual))
  }

  /** At least what is expected, and less than 2 above it. */
  predicate Near(ga: Pool, expected: Pool) {
    && Agreement.Close(ga.rd, expected.rd) && Agreement.Close(ga.wr, expected.wr)
    && Agreement.Close(ga.total, expected.total)
  }

  /** How far a pool is off what the scheduler would rebuild, before rounding. */
  datatype Gap = Gap(rd: real, wr: real, total: real)

  const NO_GAP := Gap(0.0, 0.0, 0.0)

  function Off(rebuilt: Pool, g: Gap): Pool {
    rebuilt.(rd := rebuilt.rd + g.rd, wr := rebuilt.wr + g.wr, total := rebuilt.total + g.total)
  }

  /** What the pods hold on a device that the agent did not count. */
  ghost function Missed(counted: Pods, pods: Pods, d: DevId): Gap {
    GapOf(Load(d, pods - counted.Keys))
  }

  function GapOf(m: Amount): Gap {
    Gap(m.rd, m.wr, m.rd + m.wr)
  }

  lemma CountedLoad(counted: Pods, pods: Pods, d: DevId)
    requires AllClean(pods) && CountsSome(counted, pods)
    ensures Load(d, pods) == Load(d, counted).Plus(Load(d, pods - counted.Keys))
  {
    var missing := pods.Keys - counted.Keys;
    var rest := pods - missing;
    assert rest.Keys == counted.Keys;
    SameLoad(counted, rest, d);
    assert rest + (pods - counted.Keys) == pods;
    SumOfBoth(rest, pods - counted.Keys, LoadOn(d));
  }

  lemma CountedFreshGa(rc: ResourceConfig, counted: Pods, pods: Pods, d: DevId)
    requires d in rc.devices && AllClean(pods) && CountsSome(counted, pods)
    ensures FreshGa(rc, d, counted) == Off(FreshGa(rc, d, pods), Missed(counted, pods, d))
  {
    CountedLoad(counted, pods, d);
    LighterFreshGa(rc, d, counted, pods, Load(d, pods - counted.Keys));
  }

  lemma LighterFreshGa(rc: ResourceConfig, d: DevId, counted: Pods, pods: Pods, m: Amount)
    requires d in rc.devices && Load(d, pods) == Load(d, counted).Plus(m)
    ensures FreshGa(rc, d, counted) == Off(FreshGa(rc, d, pods), GapOf(m))
  {
  }

  lemma StatusNear(status: Statuses, rc: ResourceConfig, counted: Pods, pods: Pods, actual: QoS -> Bandwidth.Workloads,
                   d: DevId)
    requires SchedulerRuns.ConfigSound(rc) && d in rc.devices && Has(status, d) && !Unfilled(status, d)
    requires AllClean(pods) && CountsSome(counted, pods) && FromAgent(status, rc, counted, actual)
    ensures Near(status[d].ga.value, Off(FreshGa(rc, d, pods), Missed(counted, pods, d)))
  {
    CountedFreshGa(rc, counted, pods, d);
    CountedClean(counted, pods);
    AgentNear(rc, d, counted, actual);
    NearSame(status[d].ga.value, AgentPool(rc, d, counted, actual), FreshGa(rc, d, counted));
  }

  lemma NearSame(x: Pool, y: Pool, expected: Pool)
    requires SameRates(x, y) && Near(y, expected)
    ensures Near(x, expected)
  {
  }

  lemma CountedClean(counted: Pods, pods: Pods)
    requires AllClean(pods) && CountsSome(counted, pods)
    ensures Agreement.CleanPods(counted)
  {
    forall u | u in counted
      ensures Clean(counted[u].requests)
    {
      BackClean(pods[u].requests, counted[u].requests);
    }
  }

  lemma AgentNear(rc: ResourceConfig, d: DevId, counted: Pods, actual: QoS -> Bandwidth.Workloads)
    requires SchedulerRuns.ConfigSound(rc) && d in rc.devices
    requires Agreement.CleanPods(counted) && Agreement.Named(counted)
    ensures Near(AgentPool(rc, d, counted, actual), FreshGa(rc, d, counted))
  {
    Agreement.ReportCloseToRebuilt(rc, d, counted, rc.devices.Keys, actual);
  }

  // ---------------------------------------------------------------- runs

  /** A scheduling step, or a status of the current generation with what the agent counted for it. */
  datatype Op =
    | Step(op: SchedulerRuns.Op)
    | Status(status: Statuses, counted: Pods, actual: QoS -> Bandwidth.Workloads)

  /** Auxiliary, per device: the gap that the last overwrite left, and the largest so far. */
  datatype Track = Track(gap: Gap, peak: Gap)

  datatype Tracked = Tracked(sys: Sys, tracks: map<DevId, Track>)

  ghost predicate Enabled(s: Sys, rc: ResourceConfig, op: Op) {
    match op
    case Step(o) => SchedulerRuns.Enabled(s, rc, o)
    case Status(status, counted, actual) =>
      status != map[] && CountsSome(counted, s.ctx.pods) && FromAgent(status, rc, counted, actual)
  }

  ghost function NextSys(s: Sys, rc: ResourceConfig, op: Op): Sys
    requires Enabled(s, rc, op)
  {
    match op
    case Step(o) => SchedulerRuns.Next(s, rc, o)
    case Status(status, _, _) => s.(disks := AllOverwritten(s.disks, status))
  }

  /** An overwrite leaves the pods out that the agent did not count; it empties a device that the
      status lacks, and skips one that is not filled in. */
  ghost function NextGap(s: Sys, rc: ResourceConfig, op: Op, d: DevId, gap: Gap): Gap
    requires d in rc.devices
  {
    if op.Step? || Unfilled(op.status, d) then gap
    else if Has(op.status, d) then Missed(op.counted, s.ctx.pods, d)
    else
      var ga := FreshGa(rc, d, s.ctx.pods);
      Gap(-ga.rd, -ga.wr, -ga.total)
  }

  function Larger(x: real, y: real): real {
    if x < y then y else x
  }

  function LargerGap(g: Gap, o: Gap): Gap {
    Gap(Larger(g.rd, o.rd), Larger(g.wr, o.wr), Larger(g.total, o.total))
  }

  ghost function NextTrack(s: Sys, rc: ResourceConfig, op: Op, d: DevId, k: Track): Track
    requires d in rc.devices
  {
    var gap := NextGap(s, rc, op, d, k.gap);
    Track(gap, LargerGap(k.peak, gap))
  }

  ghost function Next(t: Tracked, rc: ResourceConfig, op: Op): Tracked
    requires Enabled(t.sys, rc, op)
  {
    Tracked(NextSys(t.sys, rc, op),
            map d | d in t.tracks && d in rc.devices :: NextTrack(t.sys, rc, op, d, t.tracks[d]))
  }

  ghost predicate Reaches(t: Tracked, rc: ResourceConfig, ops: seq<Op>, r: Tracked)
    decreases |ops|
  {
    if ops == [] then r == t
    else Enabled(t.sys, rc, ops[0]) && Reaches(Next(t, rc, ops[0]), rc, ops[1..], r)
  }

  /** A node before anything was overwritten. */
  function Untouched(s: Sys): Tracked {
    Tracked(s, map d | d in s.disks :: Track(NO_GAP, NO_GAP))
  }

  predicate Margin(limit: Pool) {
    limit.rd > -2.0 && limit.wr > -2.0 && limit.total > -2.0
  }

  /** The best-effort pool gives each of `n` pods more than the minimum. */
  predicate Serves(d: DiskInfo, n: int) {
    && Exceeds(d.be.rd, n, d.beDefaultRead)
    && Exceeds(d.be.wr, n, d.beDefaultWrite)
    && Exceeds(d.be.total, n, d.beDefaultRead + d.beDefaultWrite)
  }

  predicate Exceeds(x: real, n: int, least: real) {
    x > n as real * least
  }

  lemma ExceedsFewer(x: real, n: int, k: int, least: real)
    requires Exceeds(x, k, least) && n <= k && least >= 0.0
    ensures Exceeds(x, n, least)
  {
    SchedulerRuns.MoreSharers(n as real, k as real, least);
  }

  /** Same best-effort pool, up to the pods in it and the pressure. */
  predicate SameBe(d: DiskInfo, o: DiskInfo) {
    SameRates(d.be, o.be) && d.beDefaultRead == o.beDefaultRead && d.beDefaultWrite == o.beDefaultWrite
  }

  lemma SameServes(d: DiskInfo, o: DiskInfo, n: int)
    requires SameBe(d, o)
    ensures Serves(d, n) <==> Serves(o, n)
  {
  }

  lemma ServesFewer(d: DiskInfo, n: int, k: int)
    requires Serves(d, k) && n <= k && d.beDefaultRead >= 0.0 && d.beDefaultWrite >= 0.0
    ensures Serves(d, n)
  {
    ExceedsFewer(d.be.rd, n, k, d.beDefaultRead);
    ExceedsFewer(d.be.wr, n, k, d.beDefaultWrite);
    ExceedsFewer(d.be.total, n, k, d.beDefaultRead + d.beDefaultWrite);
  }

  predicate BeSolvent(d: DiskInfo) {
    d.be.num >= 0 && (d.be.num > 0 ==> Serves(d, d.be.num))
  }

  /** As AddCacheNodeInfo set it, except for the pressure that the agent reports. */
  predicate StaticDisk(d: DiskInfo, rc: ResourceConfig, c: Device) {
    && SameRates(d.be, SchedulerRuns.BePool(rc, c, 0))
    && d.beDefaultRead == c.defaultIn && d.beDefaultWrite == c.defaultOut
  }

  predicate Within(g: Gap, o: Gap) {
    g.rd <= o.rd && g.wr <= o.wr && g.total <= o.total
  }

  predicate Ordered(k: Track) {
    Within(NO_GAP, k.peak) && Within(k.gap, k.peak)
  }

  /** The pool is off by the gap, and what is held exceeds the share by less than the peak and 2. */
  ghost predicate GoodDisk(s: Sys, rc: ResourceConfig, d: DevId, k: Track)
    requires d in s.disks && d in rc.devices
  {
    && StaticDisk(s.disks[d], rc, rc.devices[d])
    && Near(s.disks[d].ga, Off(FreshGa(rc, d, s.ctx.pods), k.gap))
    && Margin(Off(FreshGa(rc, d, s.ctx.pods), k.peak))
    && Ordered(k)
    && s.disks[d].be.num == Load(d, s.ctx.pods).n
    && BeSolvent(s.disks[d])
  }

  /** The request can be debited: guaranteed bandwidth with a margin of 2 over the limit. */
  predicate Payable(d: DiskInfo, limit: Pool, io: IoRequest) {
    var a := Charge(io);
    && a.NonNegative()
    && a.rd < limit.rd + 2.0 && a.wr < limit.wr + 2.0 && a.rd + a.wr < limit.total + 2.0
    && (a.n > 0 ==> Serves(d, d.be.num + 1))
  }

  ghost predicate Waiting(t: Tracked, rc: ResourceConfig, p: Pending)
    requires t.sys.disks.Keys == rc.devices.Keys == t.tracks.Keys
  {
    var s := t.sys;
    && p.uid !in s.ctx.pods && SoundRequests(p.requests) && p.requests.Keys <= s.disks.Keys
    && forall d <- p.requests ::
         Payable(s.disks[d], Off(FreshGa(rc, d, s.ctx.pods), t.tracks[d].peak), p.requests[d].io)
  }

  ghost predicate Invariant(t: Tracked, rc: ResourceConfig) {
    var s := t.sys;
    && s.disks.Keys == rc.devices.Keys == t.tracks.Keys
    && (forall d <- s.disks :: GoodDisk(s, rc, d, t.tracks[d]))
    && Tidy(s.disks, s.ctx.pods)
    && AllLoads(s.ctx.pods)
    && (s.pending.Some? ==> Waiting(t, rc, s.pending.value))
  }

  /** A scheduling step leaves the tracks as they are. */
  lemma StepTracks(t: Tracked, rc: ResourceConfig, op: Op)
    requires op.Step? && Enabled(t.sys, rc, op) && t.tracks.Keys == rc.devices.Keys
    requires forall d <- t.tracks :: Ordered(t.tracks[d])
    ensures Next(t, rc, op) == Tracked(NextSys(t.sys, rc, op), t.tracks)
  {
    forall d | d in t.tracks
      ensures NextTrack(t.sys, rc, op, d, t.tracks[d]) == t.tracks[d]
    {
      PeakStays(t.tracks[d]);
    }
  }

  lemma AllOrdered(t: Tracked, rc: ResourceConfig)
    requires Invariant(t, rc)
    ensures forall d <- t.tracks :: Ordered(t.tracks[d])
  {
    forall d | d in t.tracks
      ensures Ordered(t.tracks[d])
    {
      assert GoodDisk(t.sys, rc, d, t.tracks[d]);
    }
  }

  lemma PeakStays(k: Track)
    requires Ordered(k)
    ensures Track(k.gap, LargerGap(k.peak, k.gap)) == k
  {
  }

  // ---------------------------------------------------------------- Filter

  lemma FittingPayable(d: DiskInfo, rebuilt: Pool, k: Track, req: DeviceRequest)
    requires Sound(req.io) && d.be.num >= 0 && Fits(d, req) && Near(d.ga, Off(rebuilt, k.gap)) && Ordered(k)
    requires Margin(Off(rebuilt, k.peak)) && Charge(req.io).NonNegative()
    ensures Payable(d, Off(rebuilt, k.peak), req.io)
  {
    if req.io.qos == BE {
      var sharers := (d.be.num + 1) as real;
      SchedulerRuns.ShareExceeds(d.be.rd, sharers, d.beDefaultRead);
      SchedulerRuns.ShareExceeds(d.be.wr, sharers, d.beDefaultWrite);
      SchedulerRuns.ShareExceeds(d.be.total, sharers, d.beDefaultRead + d.beDefaultWrite);
    }
  }

  lemma FilterKeeps(t: Tracked, rc: ResourceConfig, uid: Uid, reqs: Requests)
    requires SchedulerRuns.ConfigSound(rc) && Invariant(t, rc)
    requires SchedulerRuns.Enabled(t.sys, rc, SchedulerRuns.Filter(uid, reqs))
    ensures Invariant(Tracked(SchedulerRuns.Next(t.sys, rc, SchedulerRuns.Filter(uid, reqs)), t.tracks), rc)
  {
    var s := t.sys;
    var r := SchedulerRuns.Next(s, rc, SchedulerRuns.Filter(uid, reqs));
    forall d | d in s.disks
      ensures GoodDisk(r, rc, d, t.tracks[d])
    {
      assert GoodDisk(s, rc, d, t.tracks[d]);
    }
    if CanAdmit(s.disks, reqs) {
      SchedulerRuns.RaisedIsCharged(reqs, rc);
      forall d | d in reqs
        ensures Payable(s.disks[d], Off(FreshGa(rc, d, s.ctx.pods), t.tracks[d].peak), reqs[d].io)
      {
        assert GoodDisk(s, rc, d, t.tracks[d]);
        FittingPayable(s.disks[d], FreshGa(rc, d, s.ctx.pods), t.tracks[d], reqs[d]);
      }
    }
  }

  // ---------------------------------------------------------------- a device whose load moves

  /** The load and the pools of a device move by the same amount. */
  ghost predicate Moved(s: Sys, r: Sys, d: DevId, a: Amount)
    requires d in s.disks && d in r.disks
  {
    Load(d, r.ctx.pods) == Load(d, s.ctx.pods).Plus(a) && r.disks[d] == Debited(s.disks[d], a)
  }

  lemma MovedNear(s: Sys, r: Sys, rc: ResourceConfig, d: DevId, a: Amount, gap: Gap)
    requires d in s.disks && d in r.disks && d in rc.devices && Moved(s, r, d, a)
    requires Near(s.disks[d].ga, Off(FreshGa(rc, d, s.ctx.pods), gap)) && s.disks[d].be.num == Load(d, s.ctx.pods).n
    ensures var was, now := FreshGa(rc, d, s.ctx.pods), FreshGa(rc, d, r.ctx.pods);
            && now.rd == was.rd - a.rd && now.wr == was.wr - a.wr && now.total == was.total - (a.rd + a.wr)
            && Near(r.disks[d].ga, Off(now, gap))
    ensures r.disks[d].be.num == Load(d, r.ctx.pods).n == s.disks[d].be.num + a.n
  {
  }

  lemma StaticStays(d: DiskInfo, o: DiskInfo, rc: ResourceConfig, c: Device)
    requires StaticDisk(d, rc, c) && SameBe(d, o)
    ensures StaticDisk(o, rc, c)
  {
  }

  /** The best-effort side after a debit. */
  lemma DebitedSolvent(d: DiskInfo, a: Amount)
    requires BeSolvent(d) && (a.n == 0 || (a.n == 1 && Serves(d, d.be.num + 1)))
    ensures BeSolvent(Debited(d, a)) && SameBe(d, Debited(d, a))
  {
    SameServes(d, Debited(d, a), d.be.num + a.n);
  }

  lemma ReturnedSolvent(d: DiskInfo, a: Amount)
    requires BeSolvent(d) && 0 <= a.n <= d.be.num && d.beDefaultRead >= 0.0 && d.beDefaultWrite >= 0.0
    ensures BeSolvent(Debited(d, Minus(Zero, a))) && SameBe(d, Debited(d, Minus(Zero, a)))
    ensures Serves(d, d.be.num + 1) ==> Serves(Debited(d, Minus(Zero, a)), d.be.num - a.n + 1)
  {
    var r := Debited(d, Minus(Zero, a));
    assert r.be.num == d.be.num - a.n;
    if r.be.num > 0 {
      ServesFewer(d, r.be.num, d.be.num);
      SameServes(d, r, r.be.num);
    }
    if Serves(d, d.be.num + 1) {
      ServesFewer(d, r.be.num + 1, d.be.num + 1);
      SameServes(d, r, r.be.num + 1);
    }
  }

  lemma DebitedGood(s: Sys, r: Sys, rc: ResourceConfig, d: DevId, k: Track, io: IoRequest)
    requires d in s.disks && d in r.disks && d in rc.devices && GoodDisk(s, rc, d, k)
    requires Payable(s.disks[d], Off(FreshGa(rc, d, s.ctx.pods), k.peak), io) && Moved(s, r, d, Charge(io))
    ensures GoodDisk(r, rc, d, k)
  {
    MovedNear(s, r, rc, d, Charge(io), k.gap);
    DebitedSolvent(s.disks[d], Charge(io));
    StaticStays(s.disks[d], r.disks[d], rc, rc.devices[d]);
  }

  lemma UntouchedGood(s: Sys, r: Sys, rc: ResourceConfig, d: DevId, k: Track)
    requires d in s.disks && d in r.disks && d in rc.devices && GoodDisk(s, rc, d, k) && Moved(s, r, d, Zero)
    ensures GoodDisk(r, rc, d, k)
  {
    MovedNear(s, r, rc, d, Zero, k.gap);
    DebitExact(s.disks[d], Zero, Zero);
  }

  /** What a pod leaves behind: an amount with the sign turned. */
  lemma ReturnedGood(s: Sys, r: Sys, rc: ResourceConfig, d: DevId, k: Track, a: Amount)
    requires SchedulerRuns.ConfigSound(rc)
    requires d in s.disks && d in r.disks && d in rc.devices && GoodDisk(s, rc, d, k)
    requires a.NonNegative() && a.n <= s.disks[d].be.num && Moved(s, r, d, Minus(Zero, a))
    ensures GoodDisk(r, rc, d, k)
  {
    MovedNear(s, r, rc, d, Minus(Zero, a), k.gap);
    ReturnedSolvent(s.disks[d], a);
    StaticStays(s.disks[d], r.disks[d], rc, rc.devices[d]);
  }

  lemma ReturnedPayable(s: Sys, r: Sys, rc: ResourceConfig, d: DevId, k: Track, a: Amount, io: IoRequest)
    requires SchedulerRuns.ConfigSound(rc)
    requires d in s.disks && d in r.disks && d in rc.devices && GoodDisk(s, rc, d, k)
    requires a.NonNegative() && a.n <= s.disks[d].be.num && Moved(s, r, d, Minus(Zero, a))
    requires Payable(s.disks[d], Off(FreshGa(rc, d, s.ctx.pods), k.peak), io)
    ensures Payable(r.disks[d], Off(FreshGa(rc, d, r.ctx.pods), k.peak), io)
  {
    MovedNear(s, r, rc, d, Minus(Zero, a), k.gap);
    LooserPayable(s.disks[d], a, Off(FreshGa(rc, d, s.ctx.pods), k.peak), Off(FreshGa(rc, d, r.ctx.pods), k.peak), io);
  }

  lemma LooserPayable(d: DiskInfo, a: Amount, was: Pool, now: Pool, io: IoRequest)
    requires BeSolvent(d) && d.beDefaultRead >= 0.0 && d.beDefaultWrite >= 0.0
    requires a.NonNegative() && a.n <= d.be.num && Payable(d, was, io)
    requires now.rd >= was.rd && now.wr >= was.wr && now.total >= was.total
    ensures Payable(Debited(d, Minus(Zero, a)), now, io)
  {
    ReturnedSolvent(d, a);
  }

  // ---------------------------------------------------------------- Reserve

  lemma ReserveMoves(t: Tracked, rc: ResourceConfig, o: SchedulerRuns.Op, d: DevId)
    requires SchedulerRuns.ConfigSound(rc) && Invariant(t, rc) && o.Reserve? && SchedulerRuns.Enabled(t.sys, rc, o)
    requires d in t.sys.disks
    ensures var r := SchedulerRuns.Next(t.sys, rc, o);
            d in r.disks && Moved(t.sys, r, d, Debit(o.plan, t.sys.pending.value.requests, d))
  {
    var s := t.sys;
    var uid, reqs := s.pending.value.uid, s.pending.value.requests;
    var listing := Listing(reqs, o.order);
    ReserveDebits(s, uid, o.pod, o.plan, reqs, listing, d);
    LoadAfterReserve(s, uid, o.pod, o.plan, reqs, o.order, d);
    assert Charged(reqs);
    BooksIff(o.plan, reqs, o.order, s.ctx.pods, uid, d);
  }

  lemma ReserveKeepsDisks(t: Tracked, rc: ResourceConfig, o: SchedulerRuns.Op, d: DevId)
    requires SchedulerRuns.ConfigSound(rc) && Invariant(t, rc) && o.Reserve? && SchedulerRuns.Enabled(t.sys, rc, o)
    requires d in t.sys.disks
    ensures var r := SchedulerRuns.Next(t.sys, rc, o); d in r.disks && GoodDisk(r, rc, d, t.tracks[d])
  {
    var s, reqs := t.sys, t.sys.pending.value.requests;
    var r := SchedulerRuns.Next(s, rc, o);
    ReserveMoves(t, rc, o, d);
    assert GoodDisk(s, rc, d, t.tracks[d]);
    if !Aborts(o.plan.before) && d in reqs {
      DebitedGood(s, r, rc, d, t.tracks[d], reqs[d].io);
    } else {
      UntouchedGood(s, r, rc, d, t.tracks[d]);
    }
  }

  lemma ReserveKeeps(t: Tracked, rc: ResourceConfig, o: SchedulerRuns.Op)
    requires SchedulerRuns.ConfigSound(rc) && Invariant(t, rc) && o.Reserve? && SchedulerRuns.Enabled(t.sys, rc, o)
    ensures Invariant(Tracked(SchedulerRuns.Next(t.sys, rc, o), t.tracks), rc)
  {
    var r := SchedulerRuns.Next(t.sys, rc, o);
    assert Charged(t.sys.pending.value.requests);
    SchedulerRuns.ReserveKeepsLedger(t.sys, rc, o);
    forall d | d in r.disks
      ensures GoodDisk(r, rc, d, t.tracks[d])
    {
      ReserveKeepsDisks(t, rc, o, d);
    }
  }

  // ---------------------------------------------------------------- Unreserve and pod deletion

  lemma ReleaseMoves(t: Tracked, rc: ResourceConfig, uid: Uid, d: DevId)
    requires Invariant(t, rc) && d in t.sys.disks
    ensures var s, r, a := t.sys, AfterRelease(t.sys, uid, true), Held(t.sys.ctx.pods, uid, d);
            d in r.disks && a.NonNegative() && a.n <= s.disks[d].be.num && Moved(s, r, d, Minus(Zero, a))
  {
    var s := t.sys;
    assert GoodDisk(s, rc, d, t.tracks[d]);
    LoadAfterRelease(s.ctx.pods, uid, d);
    if uid in s.ctx.pods {
      LoadAfterRemoval(d, s.ctx.pods, uid);
      LoadNonNegative(d, s.ctx.pods - {uid});
      CreditUndoesDebit(s.disks, s.ctx.pods[uid].requests, d);
      assert Loads(s.ctx.pods[uid]);
    } else {
      assert Minus(Zero, Zero) == Zero;
      DebitExact(s.disks[d], Zero, Zero);
    }
  }

  lemma ReleaseWaits(t: Tracked, rc: ResourceConfig, uid: Uid, d: DevId, io: IoRequest)
    requires SchedulerRuns.ConfigSound(rc) && Invariant(t, rc) && d in t.sys.disks
    requires Payable(t.sys.disks[d], Off(FreshGa(rc, d, t.sys.ctx.pods), t.tracks[d].peak), io)
    ensures var r := AfterRelease(t.sys, uid, true);
            d in r.disks && Payable(r.disks[d], Off(FreshGa(rc, d, r.ctx.pods), t.tracks[d].peak), io)
  {
    var s, r := t.sys, AfterRelease(t.sys, uid, true);
    ReleaseMoves(t, rc, uid, d);
    ReturnedPayable(s, r, rc, d, t.tracks[d], Held(s.ctx.pods, uid, d), io);
  }

  lemma ReleaseKeepsDisk(t: Tracked, rc: ResourceConfig, uid: Uid, d: DevId)
    requires SchedulerRuns.ConfigSound(rc) && Invariant(t, rc) && d in t.sys.disks
    ensures var r := AfterRelease(t.sys, uid, true); d in r.disks && GoodDisk(r, rc, d, t.tracks[d])
  {
    var s, r := t.sys, AfterRelease(t.sys, uid, true);
    ReleaseMoves(t, rc, uid, d);
    ReturnedGood(s, r, rc, d, t.tracks[d], Held(s.ctx.pods, uid, d));
  }

  lemma ReleaseKeeps(t: Tracked, rc: ResourceConfig, uid: Uid)
    requires SchedulerRuns.ConfigSound(rc) && Invariant(t, rc)
    ensures Invariant(Tracked(AfterRelease(t.sys, uid, true), t.tracks), rc)
  {
    var s, r := t.sys, AfterRelease(t.sys, uid, true);
    forall d | d in r.disks
      ensures GoodDisk(r, rc, d, t.tracks[d])
    {
      ReleaseKeepsDisk(t, rc, uid, d);
    }
    SameKeysTidy(s.disks, r.disks, r.ctx.pods);
    if s.pending.Some? {
      var p := s.pending.value;
      forall d | d in p.requests
        ensures Payable(r.disks[d], Off(FreshGa(rc, d, r.ctx.pods), t.tracks[d].peak), p.requests[d].io)
      {
        ReleaseWaits(t, rc, uid, d, p.requests[d].io);
      }
      assert Waiting(Tracked(r, t.tracks), rc, p);
    }
  }

  lemma SameKeysTidy(disks: Disks, next: Disks, pods: Pods)
    requires next.Keys == disks.Keys && Tidy(disks, pods)
    ensures Tidy(next, pods)
  {
    forall u | u in pods
      ensures Clean(pods[u].requests) && AllKnown(next, pods[u].requests)
    {
      SchedulerRuns.KnownSameKeys(disks, next, pods[u].requests);
    }
  }

  // ---------------------------------------------------------------- overwriting

  /** Nothing that the scheduler would give out is left on the device. */
  predicate Exhausted(rebuilt: Pool) {
    -2.0 < rebuilt.rd <= 0.0 && -2.0 < rebuilt.wr <= 0.0 && -2.0 < rebuilt.total <= 0.0
  }

  /** Overwriting keeps a pool close exactly if the status has the device, or the device is exhausted:
      one that is not in the status is emptied. */
  lemma OverwriteNearIff(info: DiskInfo, status: Statuses, d: DevId, rebuilt: Pool)
    requires Near(info.ga, rebuilt) && (Has(status, d) && !Unfilled(status, d) ==> Near(status[d].ga.value, rebuilt))
    ensures Near(Overwritten(info, status, d).ga, rebuilt) <==> Has(status, d) || Exhausted(rebuilt)
  {
  }

  /** A disk with 80 left, and a status that has only another one. */
  lemma LackedDeviceEmptied(other: DeviceStatus)
    ensures var info := ADisk(80.0, 80.0)["d"];
            Overwritten(info, map["e" := other], "d").ga == Pool(0.0, 0.0, 0.0, false, 0)
  {
    assert "d" !in map["e" := other];
  }

  lemma OverwrittenBe(d: DiskInfo, status: Statuses, dev: DevId)
    ensures var o := Overwritten(d, status, dev); SameBe(d, o) && o.be.num == d.be.num
  {
  }

  /** Whatever an overwrite does to a device, the pool is off by the new gap. */
  lemma OverwrittenNear(s: Sys, rc: ResourceConfig, op: Op, d: DevId, gap: Gap)
    requires SchedulerRuns.ConfigSound(rc) && op.Status? && Enabled(s, rc, op) && AllClean(s.ctx.pods)
    requires d in s.disks && d in rc.devices && Near(s.disks[d].ga, Off(FreshGa(rc, d, s.ctx.pods), gap))
    ensures Near(Overwritten(s.disks[d], op.status, d).ga, Off(FreshGa(rc, d, s.ctx.pods), NextGap(s, rc, op, d, gap)))
  {
    if Has(op.status, d) && !Unfilled(op.status, d) {
      StatusNear(op.status, rc, op.counted, s.ctx.pods, op.actual, d);
    } else if !Has(op.status, d) {
      EmptiedNear(FreshGa(rc, d, s.ctx.pods));
    }
  }

  lemma EmptiedNear(ga: Pool)
    ensures Near(Pool(0.0, 0.0, 0.0, false, 0), Off(ga, Gap(-ga.rd, -ga.wr, -ga.total)))
  {
  }

  /** A larger peak only loosens. */
  lemma PeakLoosens(rebuilt: Pool, k: Track, gap: Gap, d: DiskInfo, io: IoRequest)
    requires Ordered(k)
    ensures var n := Track(gap, LargerGap(k.peak, gap));
            && Ordered(n)
            && (Margin(Off(rebuilt, k.peak)) ==> Margin(Off(rebuilt, n.peak)))
            && (Payable(d, Off(rebuilt, k.peak), io) ==> Payable(d, Off(rebuilt, n.peak), io))
  {
  }

  lemma SamePayable(d: DiskInfo, o: DiskInfo, limit: Pool, io: IoRequest)
    requires Payable(d, limit, io) && SameBe(d, o) && o.be.num == d.be.num
    ensures Payable(o, limit, io)
  {
    SameServes(d, o, d.be.num + 1);
  }

  lemma OverwrittenGood(t: Tracked, rc: ResourceConfig, op: Op, d: DevId)
    requires SchedulerRuns.ConfigSound(rc) && Invariant(t, rc) && op.Status? && Enabled(t.sys, rc, op)
    requires d in t.sys.disks
    ensures var r := NextSys(t.sys, rc, op);
            d in r.disks && GoodDisk(r, rc, d, NextTrack(t.sys, rc, op, d, t.tracks[d]))
  {
    var s, k := t.sys, t.tracks[d];
    assert GoodDisk(s, rc, d, k);
    var was, now := s.disks[d], Overwritten(s.disks[d], op.status, d);
    OverwrittenNear(s, rc, op, d, k.gap);
    OverwrittenBe(was, op.status, d);
    PeakLoosens(FreshGa(rc, d, s.ctx.pods), k, NextGap(s, rc, op, d, k.gap), was, IoRequest(DiskIO, BE, None));
    StaticStays(was, now, rc, rc.devices[d]);
    SameServes(was, now, was.be.num);
  }

  lemma OverwrittenPayable(s: Sys, rc: ResourceConfig, op: Op, d: DevId, k: Track, io: IoRequest)
    requires op.Status? && d in s.disks && d in rc.devices && Ordered(k)
    requires Payable(s.disks[d], Off(FreshGa(rc, d, s.ctx.pods), k.peak), io)
    ensures Payable(Overwritten(s.disks[d], op.status, d),
                    Off(FreshGa(rc, d, s.ctx.pods), NextTrack(s, rc, op, d, k).peak), io)
  {
    var ga, gap := FreshGa(rc, d, s.ctx.pods), NextGap(s, rc, op, d, k.gap);
    PeakLoosens(ga, k, gap, s.disks[d], io);
    OverwrittenBe(s.disks[d], op.status, d);
    SamePayable(s.disks[d], Overwritten(s.disks[d], op.status, d), Off(ga, LargerGap(k.peak, gap)), io);
  }

  /** What an overwrite makes of the devices and their tracks. */
  lemma NextAfterStatus(t: Tracked, rc: ResourceConfig, op: Op, r: Tracked)
    requires t.sys.disks.Keys == rc.devices.Keys == t.tracks.Keys
    requires op.Status? && Enabled(t.sys, rc, op) && r == Next(t, rc, op)
    ensures r.sys == NextSys(t.sys, rc, op) && r.sys.disks.Keys == rc.devices.Keys == r.tracks.Keys
    ensures forall d <- r.tracks :: r.tracks[d] == NextTrack(t.sys, rc, op, d, t.tracks[d])
  {
  }

  lemma OverwriteKeepsDisk(t: Tracked, rc: ResourceConfig, op: Op, r: Tracked, d: DevId)
    requires SchedulerRuns.ConfigSound(rc) && Invariant(t, rc) && op.Status? && Enabled(t.sys, rc, op)
    requires r == Next(t, rc, op) && d in t.sys.disks
    ensures d in r.sys.disks && d in r.tracks && GoodDisk(r.sys, rc, d, r.tracks[d])
  {
    NextAfterStatus(t, rc, op, r);
    OverwrittenGood(t, rc, op, d);
  }

  lemma OverwriteWaits(t: Tracked, rc: ResourceConfig, op: Op, r: Tracked, p: Pending)
    requires Invariant(t, rc) && op.Status? && Enabled(t.sys, rc, op) && r == Next(t, rc, op)
    requires Waiting(t, rc, p)
    ensures r.sys.disks.Keys == rc.devices.Keys == r.tracks.Keys && Waiting(r, rc, p)
  {
    forall d | d in p.requests
      ensures Payable(r.sys.disks[d], Off(FreshGa(rc, d, r.sys.ctx.pods), r.tracks[d].peak), p.requests[d].io)
    {
      assert GoodDisk(t.sys, rc, d, t.tracks[d]);
      OverwrittenPayable(t.sys, rc, op, d, t.tracks[d], p.requests[d].io);
    }
  }

  lemma OverwriteKeeps(t: Tracked, rc: ResourceConfig, op: Op)
    requires SchedulerRuns.ConfigSound(rc) && Invariant(t, rc) && op.Status? && Enabled(t.sys, rc, op)
    ensures Invariant(Next(t, rc, op), rc)
  {
    var r := Next(t, rc, op);
    NextAfterStatus(t, rc, op, r);
    forall d | d in r.sys.disks
      ensures GoodDisk(r.sys, rc, d, r.tracks[d])
    {
      OverwriteKeepsDisk(t, rc, op, r, d);
    }
    SameKeysTidy(t.sys.disks, r.sys.disks, t.sys.ctx.pods);
    if t.sys.pending.Some? {
      OverwriteWaits(t, rc, op, r, t.sys.pending.value);
    }
  }

  // ---------------------------------------------------------------- every run

  lemma StepKeeps(t: Tracked, rc: ResourceConfig, op: Op)
    requires SchedulerRuns.ConfigSound(rc) && Invariant(t, rc) && Enabled(t.sys, rc, op)
    ensures Invariant(Next(t, rc, op), rc)
  {
    if op.Status? {
      OverwriteKeeps(t, rc, op);
    } else {
      AllOrdered(t, rc);
      StepTracks(t, rc, op);
      match op.op
      case Filter(uid, reqs) => FilterKeeps(t, rc, uid, reqs);
      case Reserve(_, _, _) => ReserveKeeps(t, rc, op.op);
      case Unreserve(uid) => ReleaseKeeps(t, rc, uid);
      case Delete(uid, annotated) =>
        if annotated {
          ReleaseKeeps(t, rc, uid);
        }
    }
  }

  lemma InitiallyInvariant(s: Sys, rc: ResourceConfig)
    requires SchedulerRuns.ConfigSound(rc) && SchedulerRuns.Registered(s, rc)
    ensures Invariant(Untouched(s), rc)
  {
    SchedulerRuns.InitiallyInvariant(s, rc);
    forall d | d in s.disks
      ensures GoodDisk(s, rc, d, Track(NO_GAP, NO_GAP))
    {
      assert SchedulerRuns.SolventDisk(s.disks[d]);
    }
  }

  lemma {:induction false} RunKeeps(t: Tracked, rc: ResourceConfig, ops: seq<Op>, r: Tracked)
    requires SchedulerRuns.ConfigSound(rc) && Invariant(t, rc) && Reaches(t, rc, ops, r)
    ensures Invariant(r, rc)
    decreases |ops|
  {
    if ops != [] {
      StepKeeps(t, rc, ops[0]);
      RunKeeps(Next(t, rc, ops[0]), rc, ops[1..], r);
    }
  }

  /** In every run of scheduling steps and of overwrites for the current generation, whatever pods the
      agent missed and whatever devices a status lacks: every guaranteed pool is what the scheduler
      would rebuild plus what the last overwrite left out, and less than 2 more, also after the missed
      pods are gone; and the best-effort pods are counted exactly. */
  lemma PoolsStayClose(s: Sys, rc: ResourceConfig, ops: seq<Op>, r: Tracked)
    requires SchedulerRuns.ConfigSound(rc) && SchedulerRuns.Registered(s, rc) && Reaches(Untouched(s), rc, ops, r)
    ensures r.sys.disks.Keys == rc.devices.Keys == r.tracks.Keys
    ensures forall d <- r.sys.disks ::
              && Near(r.sys.disks[d].ga, Off(FreshGa(rc, d, r.sys.ctx.pods), r.tracks[d].gap))
              && r.sys.disks[d].be.num == Load(d, r.sys.ctx.pods).n
  {
    InitiallyInvariant(s, rc);
    RunKeeps(Untouched(s), rc, ops, r);
    forall d | d in r.sys.disks
      ensures Near(r.sys.disks[d].ga, Off(FreshGa(rc, d, r.sys.ctx.pods), r.tracks[d].gap))
      ensures r.sys.disks[d].be.num == Load(d, r.sys.ctx.pods).n
    {
      assert GoodDisk(r.sys, rc, d, r.tracks[d]);
    }
  }

  /** What the reserved pods hold exceeds no limit by 2 or more, and every best-effort pod can still
      count on more than the minimum. */
  ghost predicate AlmostWithin(held: Amount, ga: Pool, be: Pool, minRd: real, minWr: real) {
    && 0.0 <= held.rd < ga.rd + 2.0
    && 0.0 <= held.wr < ga.wr + 2.0
    && held.rd + held.wr < ga.total + 2.0
    && (held.n > 0 ==> Suffices(be, held.n, minRd, minWr))
  }

  predicate Suffices(be: Pool, n: int, minRd: real, minWr: real) {
    Exceeds(be.rd, n, minRd) && Exceeds(be.wr, n, minWr) && Exceeds(be.total, n, minRd + minWr)
  }

  lemma ServesSuffices(d: DiskInfo, be: Pool, n: int)
    requires Serves(d, n) && SameRates(d.be, be)
    ensures Suffices(be, n, d.beDefaultRead, d.beDefaultWrite)
  {
  }

  /** In those runs what is held exceeds no share by more than 2 and the largest amount that an
      overwrite ever left out. */
  lemma LittleOverCommitted(s: Sys, rc: ResourceConfig, ops: seq<Op>, r: Tracked)
    requires SchedulerRuns.ConfigSound(rc) && SchedulerRuns.Registered(s, rc) && Reaches(Untouched(s), rc, ops, r)
    ensures r.tracks.Keys == rc.devices.Keys
    ensures forall d <- rc.devices ::
              var c, held := rc.devices[d], Load(d, r.sys.ctx.pods);
              AlmostWithin(held, Off(FreshGa(rc, d, map[]), r.tracks[d].peak), SchedulerRuns.BePool(rc, c, held.n),
                           c.defaultIn, c.defaultOut)
  {
    InitiallyInvariant(s, rc);
    RunKeeps(Untouched(s), rc, ops, r);
    forall d | d in rc.devices
      ensures var c, held := rc.devices[d], Load(d, r.sys.ctx.pods);
              AlmostWithin(held, Off(FreshGa(rc, d, map[]), r.tracks[d].peak), SchedulerRuns.BePool(rc, c, held.n),
                           c.defaultIn, c.defaultOut)
    {
      DeviceWithin(r, rc, d);
    }
  }

  lemma DeviceWithin(r: Tracked, rc: ResourceConfig, d: DevId)
    requires Invariant(r, rc) && d in rc.devices
    ensures var c, held := rc.devices[d], Load(d, r.sys.ctx.pods);
            AlmostWithin(held, Off(FreshGa(rc, d, map[]), r.tracks[d].peak), SchedulerRuns.BePool(rc, c, held.n),
                         c.defaultIn, c.defaultOut)
  {
    var pods, peak := r.sys.ctx.pods, r.tracks[d].peak;
    assert d in r.sys.disks && GoodDisk(r.sys, rc, d, r.tracks[d]);
    LoadNonNegative(d, pods);
    assert Load(d, map[]) == Zero;
    GoodIsWithin(r.sys.disks[d], rc, rc.devices[d], Load(d, pods), Off(FreshGa(rc, d, map[]), peak),
                 Off(FreshGa(rc, d, pods), peak));
  }

  lemma GoodIsWithin(d: DiskInfo, rc: ResourceConfig, c: Device, held: Amount, ga: Pool, rest: Pool)
    requires StaticDisk(d, rc, c) && BeSolvent(d) && d.be.num == held.n && held.NonNegative() && Margin(rest)
    requires rest.rd == ga.rd - held.rd && rest.wr == ga.wr - held.wr && rest.total == ga.total - held.rd - held.wr
    ensures AlmostWithin(held, ga, SchedulerRuns.BePool(rc, c, held.n), c.defaultIn, c.defaultOut)
  {
    if held.n > 0 {
      ServesSuffices(d, SchedulerRuns.BePool(rc, c, held.n), held.n);
    }
  }

  // ---------------------------------------------------------------- overwrites that miss nothing

  /** Every status counts the whole ledger and has every device, filled in or not. */
  ghost predicate Complete(t: Tracked, rc: ResourceConfig, ops: seq<Op>)
    decreases |ops|
  {
    ops != [] && Enabled(t.sys, rc, ops[0]) ==>
      Whole(t.sys, rc, ops[0]) && Complete(Next(t, rc, ops[0]), rc, ops[1..])
  }

  ghost predicate Whole(s: Sys, rc: ResourceConfig, op: Op) {
    op.Status? ==> CountsLedger(op.counted, s.ctx.pods) && forall d <- rc.devices :: Has(op.status, d)
  }

  predicate NoGaps(t: Tracked) {
    forall d <- t.tracks :: t.tracks[d] == Track(NO_GAP, NO_GAP)
  }

  lemma WholeLeavesNothing(t: Tracked, rc: ResourceConfig, op: Op)
    requires Enabled(t.sys, rc, op) && Whole(t.sys, rc, op) && NoGaps(t)
    ensures NoGaps(Next(t, rc, op))
  {
    forall d | d in t.tracks && d in rc.devices
      ensures NextTrack(t.sys, rc, op, d, t.tracks[d]) == Track(NO_GAP, NO_GAP)
    {
      if op.Status? {
        assert t.sys.ctx.pods - op.counted.Keys == map[];
        assert Load(d, map[]) == Zero;
      }
    }
  }

  lemma {:induction false} CompleteLeavesNothing(t: Tracked, rc: ResourceConfig, ops: seq<Op>, r: Tracked)
    requires Reaches(t, rc, ops, r) && Complete(t, rc, ops) && NoGaps(t)
    ensures NoGaps(r)
    decreases |ops|
  {
    if ops != [] {
      WholeLeavesNothing(t, rc, ops[0]);
      CompleteLeavesNothing(Next(t, rc, ops[0]), rc, ops[1..], r);
    }
  }

  /** If no overwrite misses anything, every guaranteed pool is at least what the scheduler would
      rebuild and less than 2 above it, and what is held exceeds no share by 2 or more. */
  lemma CompleteRunsStayClose(s: Sys, rc: ResourceConfig, ops: seq<Op>, r: Tracked)
    requires SchedulerRuns.ConfigSound(rc) && SchedulerRuns.Registered(s, rc)
    requires Reaches(Untouched(s), rc, ops, r) && Complete(Untouched(s), rc, ops)
    ensures r.sys.disks.Keys == rc.devices.Keys
    ensures forall d <- r.sys.disks :: Near(r.sys.disks[d].ga, FreshGa(rc, d, r.sys.ctx.pods))
    ensures forall d <- rc.devices ::
              var c, held := rc.devices[d], Load(d, r.sys.ctx.pods);
              AlmostWithin(held, FreshGa(rc, d, map[]), SchedulerRuns.BePool(rc, c, held.n), c.defaultIn, c.defaultOut)
  {
    PoolsStayClose(s, rc, ops, r);
    LittleOverCommitted(s, rc, ops, r);
    CompleteLeavesNothing(Untouched(s), rc, ops, r);
    forall d | d in rc.devices
      ensures Off(FreshGa(rc, d, r.sys.ctx.pods), r.tracks[d].gap) == FreshGa(rc, d, r.sys.ctx.pods)
      ensures Off(FreshGa(rc, d, map[]), r.tracks[d].peak) == FreshGa(rc, d, map[])
    {
      OffByNothing(FreshGa(rc, d, r.sys.ctx.pods));
      OffByNothing(FreshGa(rc, d, map[]));
    }
  }

  lemma OffByNothing(p: Pool)
    ensures Off(p, NO_GAP) == p
  {
  }
}
