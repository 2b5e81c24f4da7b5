/** What every run of the scheduler keeps: the cache agrees with the ledger, and nothing is
    over-committed. */
module SchedulerRuns {
  import opened IoTypes
  import opened Sums
  import opened DiskCache
  import opened Ledger
  import opened Scheduler

  /** The static configuration of a node. */
  predicate ConfigSound(rc: ResourceConfig) {
    && 0 <= rc.bePool <= 100
    && forall d <- rc.devices ::
         var c := rc.devices[d];
         && c.capacityIn >= 0.0 && c.capacityOut >= 0.0 && c.capacityTotal >= 0.0
         && c.defaultIn >= 0.0 && c.defaultOut >= 0.0
  }

  function BePool(rc: ResourceConfig, c: Device, num: int): Pool {
    Pool(Share(rc.bePool, c.capacityIn) as real, Share(rc.bePool, c.capacityOut) as real,
         Share(rc.bePool, c.capacityTotal) as real, false, num)
  }

  /** The best-effort pools and minima stay as AddCacheNodeInfo set them. */
  ghost predicate Static(disks: Disks, rc: ResourceConfig) {
    && disks.Keys == rc.devices.Keys
    && forall d <- disks ::
         && disks[d].be == BePool(rc, rc.devices[d], disks[d].be.num)
         && disks[d].beDefaultRead == rc.devices[d].defaultIn
         && disks[d].beDefaultWrite == rc.devices[d].defaultOut
  }

  /** A guaranteed request is never below the minimum of its device. */
  ghost predicate Raised(reqs: Requests, rc: ResourceConfig) {
    forall d <- reqs | d in rc.devices && reqs[d].io.qos == GA ::
      && reqs[d].io.dev.Some?
      && var q := OrZero(reqs[d].io.dev.value.request);
         q.inbps >= rc.devices[d].defaultIn && q.outbps >= rc.devices[d].defaultOut
  }

  /** Guaranteed bandwidth is left over in every direction, and each best-effort pod can count on
      more than the minimum. */
  predicate SolventDisk(d: DiskInfo) {
    && d.ga.rd >= 0.0 && d.ga.wr >= 0.0 && d.ga.total >= 0.0
    && d.be.num >= 0
    && (d.be.num > 0 ==>
          && d.be.rd > d.be.num as real * d.beDefaultRead
          && d.be.wr > d.be.num as real * d.beDefaultWrite
          && d.be.total > d.be.num as real * (d.beDefaultRead + d.beDefaultWrite))
  }

  ghost predicate Solvent(disks: Disks) {
    forall d <- disks :: SolventDisk(disks[d])
  }

  // ---------------------------------------------------------------- single devices

  lemma ShareExceeds(x: real, sharers: real, m: real)
    requires sharers > 0.0 && x / sharers > m
    ensures x > sharers * m
  {
    assert x == x / sharers * sharers;
  }

  lemma MoreSharers(n: real, k: real, m: real)
    requires n <= k && m >= 0.0
    ensures n * m <= k * m
  {
  }

  lemma ExceedsShare(x: real, sharers: real, m: real)
    requires sharers > 0.0 && x > sharers * m
    ensures x / sharers > m
  {
    assert x == x / sharers * sharers;
  }

  predicate MinimaValid(d: DiskInfo) {
    d.beDefaultRead >= 0.0 && d.beDefaultWrite >= 0.0
  }

  /** What the admission test lets through leaves the device solvent. */
  lemma AdmittedStaysSolvent(d: DiskInfo, req: DeviceRequest)
    requires SolventDisk(d) && Sound(req.io) && Fits(d, req)
    ensures SolventDisk(Debited(d, Charge(req.io)))
  {
    if req.io.qos == BE {
      var sharers := (d.be.num + 1) as real;
      ShareExceeds(d.be.rd, sharers, d.beDefaultRead);
      ShareExceeds(d.be.wr, sharers, d.beDefaultWrite);
      ShareExceeds(d.be.total, sharers, d.beDefaultRead + d.beDefaultWrite);
    }
  }

  /** Exactly what is admitted on a device: what it has the space for, is not under pressure for, and
      that leaves no guaranteed pool overdrawn, or every best-effort pod more than the minimum. */
  lemma AdmittedIff(d: DiskInfo, req: DeviceRequest)
    requires Sound(req.io) && d.be.num >= 0
    ensures var r := Debited(d, Charge(req.io));
            Fits(d, req) <==>
              && req.storage <= d.capacity - d.requestedDiskSpace
              && (req.io.qos == GA ==> !d.ga.pressured && r.ga.rd >= 0.0 && r.ga.wr >= 0.0 && r.ga.total >= 0.0)
              && (req.io.qos == BE ==>
                    && !d.be.pressured
                    && r.be.rd > r.be.num as real * d.beDefaultRead
                    && r.be.wr > r.be.num as real * d.beDefaultWrite
                    && r.be.total > r.be.num as real * (d.beDefaultRead + d.beDefaultWrite))
  {
    if req.io.qos == BE {
      var sharers := (d.be.num + 1) as real;
      SharesExceedIff(d.be.rd, sharers, d.beDefaultRead);
      SharesExceedIff(d.be.wr, sharers, d.beDefaultWrite);
      SharesExceedIff(d.be.total, sharers, d.beDefaultRead + d.beDefaultWrite);
    }
  }

  /** A status that passes the guard decides, for every device whose numbers it has, what is admitted
      there: nothing of a class that it reports under pressure, and otherwise what its numbers cover
      for guaranteed pods, and the pool as it was for best-effort ones. */
  lemma StatusDecidesAdmission(info: DiskInfo, status: Statuses, d: DevId, ga: Pool, be: Option<bool>,
                               req: DeviceRequest)
    requires d in status && status[d] == DeviceStatus(Some(ga), be) && ga.rd >= 0.0
    requires Sound(req.io) && info.be.num >= 0 && req.storage <= info.capacity - info.requestedDiskSpace
    ensures var o := Overwritten(info, status, d);
            && (req.io.qos == GA ==>
                  var q := req.io.dev.value.request.value;
                  Fits(o, req) <==>
                  !ga.pressured && q.inbps <= ga.rd && q.outbps <= ga.wr && q.inbps + q.outbps <= ga.total)
            && (req.io.qos == BE ==>
                  (Fits(o, req) <==> be != Some(true) && Fits(info.(be := info.be.(pressured := false)), req)))
  {
  }

  lemma SharesExceedIff(x: real, sharers: real, m: real)
    requires sharers > 0.0
    ensures x / sharers > m <==> x > sharers * m
  {
    if x / sharers > m {
      ShareExceeds(x, sharers, m);
    } else if x > sharers * m {
      ExceedsShare(x, sharers, m);
    }
  }

  ghost function Returned(d: DiskInfo, a: Amount): DiskInfo {
    Debited(d, Minus(Zero, a))
  }

  lemma ReturnKeepsSolvent(d: DiskInfo, a: Amount)
    requires SolventDisk(d) && MinimaValid(d) && a.NonNegative() && a.n <= d.be.num
    ensures SolventDisk(Returned(d, a))
  {
    var r := Returned(d, a);
    var n, k := r.be.num as real, d.be.num as real;
    assert r.be.num == d.be.num - a.n;
    MoreSharers(n, k, d.beDefaultRead);
    MoreSharers(n, k, d.beDefaultWrite);
    var both := d.beDefaultRead + d.beDefaultWrite;
    MoreSharers(n, k, both);
    assert r.be.num > 0 ==> r.be.total > n * both;
  }

  /** Returning bandwidth never turns an admitted request away. */
  lemma ReturnKeepsFit(d: DiskInfo, a: Amount, req: DeviceRequest)
    requires d.be.num >= 0 && MinimaValid(d) && a.NonNegative() && a.n <= d.be.num
    requires Sound(req.io) && Fits(d, req)
    ensures Returned(d, a).be.num >= 0 && Fits(Returned(d, a), req)
  {
    var r := Returned(d, a);
    assert r.be.num == d.be.num - a.n;
    if req.io.qos == BE {
      var few, many := (r.be.num + 1) as real, (d.be.num + 1) as real;
      FewerSharers(d.be.rd, few, many, d.beDefaultRead);
      FewerSharers(d.be.wr, few, many, d.beDefaultWrite);
      FewerSharers(d.be.total, few, many, d.beDefaultRead + d.beDefaultWrite);
    }
  }

  lemma FewerSharers(x: real, few: real, many: real, m: real)
    requires 0.0 < few <= many && m >= 0.0 && x / many > m
    ensures x / few > m
  {
    ShareExceeds(x, many, m);
    MoreSharers(few, many, m);
    ExceedsShare(x, few, m);
  }

  // ---------------------------------------------------------------- runs

  /** A scheduling step that runs to completion. */
  datatype Op =
    | Filter(uid: Uid, requests: Requests)
    | Reserve(pod: PodRef, plan: Plan, order: seq<DevId>)
    | Unreserve(uid: Uid)
    | Delete(uid: Uid, annotated: bool)

  /** What the step may assume.  Filter sees a pod that holds nothing yet, with the requests
      that AdmitPod builds; Reserve follows the pod's own Filter and books what it debits; a
      released pod names the node. */
  ghost predicate Enabled(s: Sys, rc: ResourceConfig, op: Op) {
    match op
    case Filter(uid, reqs) => SoundRequests(reqs) && Raised(reqs, rc) && uid !in s.ctx.pods && CountsValid(s.disks)
    case Reserve(pod, p, order) =>
      && s.pending.Some?
      && var reqs := s.pending.value.requests;
         && Visits(order, reqs)
         && OwnRequests(p.before) && OwnRequests(p.after)
         && (Aborts(p.before) || (p.mapped && !Aborts(p.after)))
    case Unreserve(_) => true
    case Delete(_, _) => true
  }

  ghost function Next(s: Sys, rc: ResourceConfig, op: Op): Sys
    requires Enabled(s, rc, op)
  {
    match op
    case Filter(uid, reqs) => s.(pending := if CanAdmit(s.disks, reqs) then Some(Pending(uid, reqs)) else None)
    case Reserve(pod, p, order) =>
      var reqs := s.pending.value.requests;
      AfterReserve(s, s.pending.value.uid, pod, Turns(p), reqs, Listing(reqs, order))
    case Unreserve(uid) => AfterRelease(s, uid, true)
    case Delete(uid, annotated) => if annotated then AfterRelease(s, uid, true) else s
  }

  ghost predicate Reaches(s: Sys, rc: ResourceConfig, ops: seq<Op>, r: Sys)
    decreases |ops|
  {
    if ops == [] then r == s
    else Enabled(s, rc, ops[0]) && Reaches(Next(s, rc, ops[0]), rc, ops[1..], r)
  }

  /** A node that was just registered: no pod reserved, pools as InitNodeStatus fills them. */
  ghost predicate Registered(s: Sys, rc: ResourceConfig) {
    && s.ctx.pods == map[]
    && s.pending == None
    && Static(s.disks, rc)
    && Rebuilt(s.disks, rc, map[]) == s.disks
  }

  ghost predicate Invariant(s: Sys, rc: ResourceConfig) {
    && Static(s.disks, rc)
    && Agrees(s.disks, rc, s.ctx.pods)
    && Tidy(s.disks, s.ctx.pods)
    && AllLoads(s.ctx.pods)
    && Solvent(s.disks)
    && (s.pending.Some? ==> Waiting(s, rc, s.pending.value))
  }

  /** The pod that passed Filter still fits. */
  ghost predicate Waiting(s: Sys, rc: ResourceConfig, p: Pending)
    requires Solvent(s.disks)
  {
    && p.uid !in s.ctx.pods
    && SoundRequests(p.requests)
    && Raised(p.requests, rc)
    && CanAdmit(s.disks, p.requests)
  }

  lemma ShareNonNegative(percent: int, capacity: real)
    requires percent >= 0 && capacity >= 0.0
    ensures Share(percent, capacity) >= 0
  {
  }

  lemma InitiallyInvariant(s: Sys, rc: ResourceConfig)
    requires ConfigSound(rc) && Registered(s, rc)
    ensures Invariant(s, rc)
  {
    AgreesIffRebuildIdle(s.disks, rc, map[]);
    forall d | d in s.disks
      ensures SolventDisk(s.disks[d])
    {
      assert Load(d, map[]) == Zero;
      var c := rc.devices[d];
      ShareNonNegative(100 - rc.bePool, c.capacityIn);
      ShareNonNegative(100 - rc.bePool, c.capacityOut);
      ShareNonNegative(100 - rc.bePool, c.capacityTotal);
    }
  }

  lemma RaisedIsCharged(reqs: Requests, rc: ResourceConfig)
    requires ConfigSound(rc) && SoundRequests(reqs) && Raised(reqs, rc) && reqs.Keys <= rc.devices.Keys
    ensures Charged(reqs)
  {
  }

  /** Whatever Reserve writes into the ledger is clean and holds non-negative amounts. */
  lemma EnteredTidy(disks: Disks, p: Plan, reqs: Requests, order: seq<DevId>)
    requires SoundRequests(reqs) && Charged(reqs) && Visits(order, reqs) && reqs.Keys <= disks.Keys
    requires OwnRequests(p.before) && OwnRequests(p.after) && p.mapped
    ensures var rs := Entered(p, Listing(reqs, order));
            Clean(rs) && AllKnown(disks, rs) && forall d :: Reserved(d, rs).NonNegative()
  {
    var rs := Entered(p, Listing(reqs, order));
    GrantsSilent(p.before);
    GrantsSilent(p.after);
    ListingEnumerates(reqs, order);
    ListingCarries(Grants(p.before), Listing(reqs, order), Grants(p.after), reqs);
    forall i | 0 <= i < |rs|
      ensures Known(disks, rs[i])
    {
      assert rs[i] in rs;
    }
  }

  /** Reserve keeps the ledger's entries clean and non-negative. */
  lemma ReserveKeepsLedger(s: Sys, rc: ResourceConfig, op: Op)
    requires op.Reserve? && Enabled(s, rc, op)
    requires var reqs := s.pending.value.requests;
             SoundRequests(reqs) && Charged(reqs) && reqs.Keys <= s.disks.Keys
    requires Tidy(s.disks, s.ctx.pods) && AllLoads(s.ctx.pods)
    ensures var r := Next(s, rc, op);
            r.disks.Keys == s.disks.Keys && Tidy(r.disks, r.ctx.pods) && AllLoads(r.ctx.pods) && r.pending == None
  {
    var reqs, p := s.pending.value.requests, op.plan;
    var r := Next(s, rc, op);
    WalkPlan(s.disks, p, reqs, Listing(reqs, op.order));
    if !Aborts(p.before) {
      EnteredTidy(s.disks, p, reqs, op.order);
    }
    forall u | u in r.ctx.pods
      ensures Clean(r.ctx.pods[u].requests) && AllKnown(r.disks, r.ctx.pods[u].requests) && Loads(r.ctx.pods[u])
    {
      KnownSameKeys(s.disks, r.disks, r.ctx.pods[u].requests);
    }
  }

  lemma ReserveKeeps(s: Sys, rc: ResourceConfig, op: Op)
    requires ConfigSound(rc) && Invariant(s, rc) && op.Reserve? && Enabled(s, rc, op)
    ensures Invariant(Next(s, rc, op), rc)
  {
    var uid, reqs := s.pending.value.uid, s.pending.value.requests;
    var p, order := op.plan, op.order;
    var listing := Listing(reqs, order);
    var r := Next(s, rc, op);
    RaisedIsCharged(reqs, rc);
    WalkPlan(s.disks, p, reqs, listing);
    assert Agrees(r.disks, rc, r.ctx.pods) by {
      ReserveKeepsAgreementIff(s, rc, uid, op.pod, p, reqs, order);
    }
    ReserveKeepsLedger(s, rc, op);
    if !Aborts(p.before) {
      forall d | d in r.disks
        ensures SolventDisk(r.disks[d])
      {
        if d in reqs {
          AdmittedStaysSolvent(s.disks[d], reqs[d]);
        }
      }
    }
  }

  lemma KnownSameKeys(disks: Disks, next: Disks, rs: seq<IoRequest>)
    requires disks.Keys == next.Keys
    ensures AllKnown(disks, rs) <==> AllKnown(next, rs)
  {
    assert forall i | 0 <= i < |rs| :: Known(disks, rs[i]) <==> Known(next, rs[i]);
  }

  lemma ReleasedDisk(s: Sys, rc: ResourceConfig, uid: Uid, d: DevId)
    requires ConfigSound(rc) && Invariant(s, rc) && d in s.disks
    ensures var r := AfterRelease(s, uid, true);
            var a := Held(s.ctx.pods, uid, d);
            && d in r.disks
            && r.disks[d] == Returned(s.disks[d], a)
            && a.NonNegative() && a.n <= s.disks[d].be.num
            && MinimaValid(s.disks[d])
  {
    assert rc.devices[d].defaultIn >= 0.0;
    if uid in s.ctx.pods {
      CountCovers(s.disks, rc, s.ctx.pods, uid, d);
      CreditUndoesDebit(s.disks, s.ctx.pods[uid].requests, d);
      assert Loads(s.ctx.pods[uid]);
    } else {
      assert Minus(Zero, Zero) == Zero;
      DebitExact(s.disks[d], Zero, Zero);
      assert SolventDisk(s.disks[d]);
    }
  }

  lemma ReleaseKeeps(s: Sys, rc: ResourceConfig, uid: Uid)
    requires ConfigSound(rc) && Invariant(s, rc)
    ensures Invariant(AfterRelease(s, uid, true), rc)
  {
    var r := AfterRelease(s, uid, true);
    ReleaseKeepsAgreementIff(s, rc, uid, true);
    forall u | u in r.ctx.pods
      ensures Clean(r.ctx.pods[u].requests) && AllKnown(r.disks, r.ctx.pods[u].requests) && Loads(r.ctx.pods[u])
    {
      KnownSameKeys(s.disks, r.disks, r.ctx.pods[u].requests);
    }
    forall d | d in r.disks
      ensures SolventDisk(r.disks[d])
      ensures r.disks[d].be == s.disks[d].be.(num := r.disks[d].be.num)
      ensures r.disks[d].beDefaultRead == s.disks[d].beDefaultRead
      ensures r.disks[d].beDefaultWrite == s.disks[d].beDefaultWrite
    {
      ReleasedDisk(s, rc, uid, d);
      ReturnKeepsSolvent(s.disks[d], Held(s.ctx.pods, uid, d));
    }
    if s.pending.Some? {
      var reqs := s.pending.value.requests;
      forall d | d in reqs
        ensures d in r.disks && Fits(r.disks[d], reqs[d])
      {
        ReleasedDisk(s, rc, uid, d);
        ReturnKeepsFit(s.disks[d], Held(s.ctx.pods, uid, d), reqs[d]);
      }
    }
  }

  lemma StepKeeps(s: Sys, rc: ResourceConfig, op: Op)
    requires ConfigSound(rc) && Invariant(s, rc) && Enabled(s, rc, op)
    ensures Invariant(Next(s, rc, op), rc)
  {
    match op
    case Filter(uid, reqs) =>
    case Reserve(_, _, _) => ReserveKeeps(s, rc, op);
    case Unreserve(uid) => ReleaseKeeps(s, rc, uid);
    case Delete(uid, annotated) =>
      if annotated {
        ReleaseKeeps(s, rc, uid);
      }
  }

  /** What Reserve of the plugin does to a reachable state is the step of a run: the pending requests
      are for cached devices, so nothing stops block I/O half way. */
  lemma ReserveIsNext(s: Sys, rc: ResourceConfig, op: Op)
    requires Invariant(s, rc) && op.Reserve? && Enabled(s, rc, op)
    ensures var reqs := s.pending.value.requests;
            AfterReserve(s, s.pending.value.uid, op.pod, Attainable(Turns(op.plan), reqs.Keys <= s.disks.Keys),
                         Debitable(s.disks, reqs, op.order), Listing(reqs, op.order)) == Next(s, rc, op)
  {
    AllAttainable(s.disks, Turns(op.plan), s.pending.value.requests, op.order);
  }

  /** The plugin's own methods make the steps of a run. */
  method Perform(plugin: ResourceIo, ghost rc: ResourceConfig, op: Op)
    requires ConfigSound(rc) && Invariant(plugin.State(), rc) && Enabled(plugin.State(), rc, op)
    modifies plugin, plugin.disk, plugin.ctx
    ensures plugin.State() == Next(old(plugin.State()), rc, op)
    ensures Invariant(plugin.State(), rc)
  {
    StepKeeps(plugin.State(), rc, op);
    match op
    case Filter(uid, reqs) => var ok := plugin.Filter(uid, reqs);
    case Reserve(pod, plan, order) =>
      ReserveIsNext(plugin.State(), rc, op);
      var ok := plugin.Reserve(plugin.pending.value.uid, pod, Turns(plan), plugin.pending.value.requests, order);
    case Unreserve(uid) =>
      EntrySound(plugin.State(), rc, uid);
      plugin.Unreserve(uid, plugin.ctx.node);
    case Delete(uid, annotated) =>
      EntrySound(plugin.State(), rc, uid);
      plugin.DeletePod(uid, plugin.ctx.node, annotated);
  }

  lemma EntrySound(s: Sys, rc: ResourceConfig, uid: Uid)
    requires Invariant(s, rc)
    ensures uid in s.ctx.pods ==> SoundEntry(s.ctx.pods[uid])
  {
  }

  lemma {:induction false} RunKeeps(s: Sys, rc: ResourceConfig, ops: seq<Op>, r: Sys)
    requires ConfigSound(rc) && Invariant(s, rc) && Reaches(s, rc, ops, r)
    ensures Invariant(r, rc)
    decreases |ops|
  {
    if ops != [] {
      StepKeeps(s, rc, ops[0]);
      RunKeeps(Next(s, rc, ops[0]), rc, ops[1..], r);
    }
  }

  /** The guaranteed pools are the shares less what the ledger holds, and BE.Num is the number of
      best-effort pods. */
  ghost predicate PoolsFollow(info: DiskInfo, rc: ResourceConfig, d: DevId, pods: Pods)
    requires d in rc.devices
  {
    var c, held := rc.devices[d], Load(d, pods);
    && info.ga.rd == Share(100 - rc.bePool, c.capacityIn) as real - held.rd
    && info.ga.wr == Share(100 - rc.bePool, c.capacityOut) as real - held.wr
    && info.ga.total == Share(100 - rc.bePool, c.capacityTotal) as real - held.rd - held.wr
    && info.be.num == held.n
  }

  lemma AgreesPerDevice(disks: Disks, rc: ResourceConfig, pods: Pods, d: DevId)
    requires Agrees(disks, rc, pods) && d in disks
    ensures PoolsFollow(disks[d], rc, d, pods)
  {
  }

  /** After every run of completed scheduling steps, rebuilding the cache from the ledger changes
      nothing, and the clamp on best-effort counters never has anything to clamp. */
  lemma CacheAgreesWithLedger(s: Sys, rc: ResourceConfig, ops: seq<Op>, r: Sys)
    requires ConfigSound(rc) && Registered(s, rc) && Reaches(s, rc, ops, r)
    ensures r.disks.Keys == rc.devices.Keys
    ensures Rebuilt(r.disks, rc, r.ctx.pods) == r.disks
    ensures forall d <- r.disks :: PoolsFollow(r.disks[d], rc, d, r.ctx.pods)
    ensures forall d <- r.disks, u <- r.ctx.pods :: r.disks[d].be.num >= Reserved(d, r.ctx.pods[u].requests).n
  {
    InitiallyInvariant(s, rc);
    RunKeeps(s, rc, ops, r);
    AgreesIffRebuildIdle(r.disks, rc, r.ctx.pods);
    forall d | d in r.disks
      ensures PoolsFollow(r.disks[d], rc, d, r.ctx.pods)
    {
      AgreesPerDevice(r.disks, rc, r.ctx.pods, d);
    }
    forall d <- r.disks, u <- r.ctx.pods
      ensures r.disks[d].be.num >= Reserved(d, r.ctx.pods[u].requests).n
    {
      CountCovers(r.disks, rc, r.ctx.pods, u, d);
    }
  }

  /** The amount `held` is within the guaranteed pool in every direction, and each of the counted
      best-effort pods has more than the minimum share of the best-effort pool. */
  ghost predicate Within(held: Amount, ga: Pool, be: Pool, minRd: real, minWr: real) {
    && 0.0 <= held.rd <= ga.rd
    && 0.0 <= held.wr <= ga.wr
    && held.rd + held.wr <= ga.total
    && (held.n > 0 ==>
          && be.rd > held.n as real * minRd && be.wr > held.n as real * minWr
          && be.total > held.n as real * (minRd + minWr))
  }

  lemma SolventIsWithin(d: DiskInfo, held: Amount, ga: Pool)
    requires SolventDisk(d) && held.NonNegative() && d.be.num == held.n
    requires d.ga.rd == ga.rd - held.rd && d.ga.wr == ga.wr - held.wr && d.ga.total == ga.total - held.rd - held.wr
    ensures Within(held, ga, d.be, d.beDefaultRead, d.beDefaultWrite)
  {
  }

  /** After every run of completed scheduling steps, what the reserved pods hold stays within the
      pools of every device. */
  lemma NothingOverCommitted(s: Sys, rc: ResourceConfig, ops: seq<Op>, r: Sys)
    requires ConfigSound(rc) && Registered(s, rc) && Reaches(s, rc, ops, r)
    ensures forall d <- rc.devices ::
              var c, held := rc.devices[d], Load(d, r.ctx.pods);
              Within(held, FreshGa(rc, d, map[]), BePool(rc, c, held.n), c.defaultIn, c.defaultOut)
  {
    InitiallyInvariant(s, rc);
    RunKeeps(s, rc, ops, r);
    forall d | d in rc.devices
      ensures var c, held := rc.devices[d], Load(d, r.ctx.pods);
              Within(held, FreshGa(rc, d, map[]), BePool(rc, c, held.n), c.defaultIn, c.defaultOut)
    {
      LoadNonNegative(d, r.ctx.pods);
      assert Load(d, map[]) == Zero;
      assert d in r.disks;
      SolventIsWithin(r.disks[d], Load(d, r.ctx.pods), FreshGa(rc, d, map[]));
    }
  }
}
