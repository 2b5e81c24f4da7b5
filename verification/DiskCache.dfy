/** The scheduler's per-disk cache (pkg/scheduler/blockio/resource.go and handle.go): pools of
    guaranteed and best-effort bandwidth that pods debit and credit, the admission test in front
    of them, and the function that rebuilds them from the ledger of reserved pods. */
module DiskCache {
  import opened IoTypes
  import opened Sums

  type Disks = map<DevId, DiskInfo>
  type Requests = map<DevId, DeviceRequest>

  // ---------------------------------------------------------------- requests

  /** The request `r` concerns disk `dev`. */
  predicate Asks(r: IoRequest, dev: DevId) {
    r.ioType == DiskIO && r.dev.Some? && r.dev.value.devName == dev
  }

  /** What a request takes out of its device while it is reserved. */
  function Charge(r: IoRequest): Amount {
    match r.qos
    case GA =>
      if r.dev.Some? then
        var q := OrZero(r.dev.value.request);
        Amount(q.inbps, q.outbps, 0)
      else Zero
    case BT => Zero
    case BE => Amount(0.0, 0.0, 1)
  }

  /** A disk request as the scheduler builds it: it names its device, it is guaranteed or best
      effort, and a guaranteed one carries a request. */
  predicate Sound(r: IoRequest) {
    && r.ioType == DiskIO
    && r.dev.Some?
    && r.qos != BT
    && (r.qos == GA ==> r.dev.value.request.Some?)
  }

  predicate SoundRequests(reqs: Requests) {
    forall d <- reqs :: Sound(reqs[d].io) && reqs[d].io.dev.value.devName == d
  }

  /** The disk requests of a pod are sound and name each device at most once. */
  ghost predicate Clean(rs: seq<IoRequest>) {
    && (forall r <- rs :: r.ioType == DiskIO ==> Sound(r))
    && (forall i, j | 0 <= i < j < |rs| && rs[i].ioType == DiskIO && rs[j].ioType == DiskIO ::
          rs[i].dev.value.devName != rs[j].dev.value.devName)
  }

  /** `rs` lists the entries of the map `reqs`, each once, in some order. */
  ghost predicate Enumerates(rs: seq<IoRequest>, reqs: Requests) {
    && (forall r <- rs :: Sound(r) && r.dev.value.devName in reqs && reqs[r.dev.value.devName].io == r)
    && (forall i, j | 0 <= i < j < |rs| :: rs[i].dev.value.devName != rs[j].dev.value.devName)
    && (forall d <- reqs :: reqs[d].io in rs)
  }

  /** calculateReservedBw: the bandwidth a pod holds on `dev`, and whether it is best effort there. */
  function Reserved(dev: DevId, rs: seq<IoRequest>): Amount {
    if rs == [] then Zero
    else if !Asks(rs[0], dev) then Reserved(dev, rs[1..])
    else if rs[0].qos == BE then Amount(0.0, 0.0, 1)
    else
      var q := OrZero(rs[0].dev.value.request);
      Amount(q.inbps, q.outbps, 0).Plus(Reserved(dev, rs[1..]))
  }

  method CalculateReservedBw(dev: DevId, rs: seq<IoRequest>) returns (rd: real, wr: real, isBe: bool)
    ensures Amount(rd, wr, if isBe then 1 else 0) == Reserved(dev, rs)
  {
    rd, wr := 0.0, 0.0;
    for i := 0 to |rs|
      invariant Reserved(dev, rs) == Amount(rd, wr, 0).Plus(Reserved(dev, rs[i..]))
    {
      assert rs[i..][0] == rs[i] && rs[i..][1..] == rs[i + 1..];
      if !Asks(rs[i], dev) {
        continue;
      }
      if rs[i].qos == BE {
        return rd, wr, true;
      }
      if rs[i].dev.value.request.Some? {
        rd := rd + rs[i].dev.value.request.value.inbps;
        wr := wr + rs[i].dev.value.request.value.outbps;
      }
    }
    isBe := false;
  }

  /** On a clean list the early exit and the accumulation come to one thing: the charge of the
      only entry for the device. */
  lemma {:induction false} ReservedIsCharge(dev: DevId, rs: seq<IoRequest>, i: nat)
    requires Clean(rs) && i < |rs| && Asks(rs[i], dev)
    ensures Reserved(dev, rs) == Charge(rs[i])
    decreases |rs|
  {
    if i == 0 {
      assert forall r <- rs[1..] :: !Asks(r, dev);
      ReservedNothing(dev, rs[1..]);
    } else {
      assert !Asks(rs[0], dev);
      ReservedIsCharge(dev, rs[1..], i - 1);
    }
  }

  lemma {:induction false} ReservedNothing(dev: DevId, rs: seq<IoRequest>)
    requires forall r <- rs :: !Asks(r, dev)
    ensures Reserved(dev, rs) == Zero
  {
    if rs != [] {
      assert rs[0] in rs;
      ReservedNothing(dev, rs[1..]);
    }
  }

  // ---------------------------------------------------------------- pools

  function Debited(d: DiskInfo, a: Amount): DiskInfo {
    d.(ga := d.ga.(rd := d.ga.rd - a.rd, wr := d.ga.wr - a.wr, total := d.ga.total - (a.rd + a.wr)),
       be := d.be.(num := d.be.num + a.n))
  }

  function Max(a: int, b: int): int {
    if a > b then a else b
  }

  /** The counter of best-effort pods is clamped at zero when a best-effort pod leaves. */
  function Credited(d: DiskInfo, r: IoRequest): DiskInfo {
    var a := Charge(r);
    d.(ga := d.ga.(rd := d.ga.rd + a.rd, wr := d.ga.wr + a.wr, total := d.ga.total + (a.rd + a.wr)),
       be := d.be.(num := if r.qos == BE then Max(d.be.num - 1, 0) else d.be.num))
  }

  function DebitAll(disks: Disks, reqs: Requests): Disks {
    map d | d in disks :: if d in reqs then Debited(disks[d], Charge(reqs[d].io)) else disks[d]
  }

  /** A ledger entry can be given back: its device, if it has one, is cached. */
  predicate Known(disks: Disks, r: IoRequest) {
    r.ioType == DiskIO ==> Sound(r) && r.dev.value.devName in disks
  }

  /** The disk requests of an entry have all they need to be given back. */
  predicate SoundEntry(p: PodRequest) {
    forall x <- p.requests :: x.ioType == DiskIO ==> Sound(x)
  }

  predicate AllKnown(disks: Disks, rs: seq<IoRequest>) {
    forall i | 0 <= i < |rs| :: Known(disks, rs[i])
  }

  function CreditOne(disks: Disks, r: IoRequest): (next: Disks)
    requires Known(disks, r)
    ensures next.Keys == disks.Keys
  {
    if r.ioType == DiskIO then
      var dev := r.dev.value.devName;
      disks[dev := Credited(disks[dev], r)]
    else disks
  }

  /** Gives back one request after the other, up to the first that is for an unknown device. */
  function CreditAll(disks: Disks, rs: seq<IoRequest>): (next: Disks)
    ensures next.Keys == disks.Keys
  {
    if rs == [] || !Known(disks, rs[0]) then disks else CreditAll(CreditOne(disks, rs[0]), rs[1..])
  }

  /** Giving back what was never counted leaves the counter of best-effort pods at zero. */
  lemma CreditStopsAtZero(d: DiskInfo, r: IoRequest)
    requires d.be.num >= 0
    ensures Credited(d, r).be.num == if r.qos == BE && d.be.num > 0 then d.be.num - 1 else d.be.num
  {
  }

  lemma {:induction false} CreditsKeepCounts(disks: Disks, rs: seq<IoRequest>)
    requires forall d <- disks :: disks[d].be.num >= 0
    ensures forall d <- CreditAll(disks, rs) :: CreditAll(disks, rs)[d].be.num >= 0
    decreases |rs|
  {
    if rs != [] && Known(disks, rs[0]) {
      CreditsKeepCounts(CreditOne(disks, rs[0]), rs[1..]);
    }
  }

  /** `order` is a way to walk the map: every key once. */
  ghost predicate Visits<V>(order: seq<DevId>, m: map<DevId, V>) {
    && (forall d :: d in order <==> d in m)
    && (forall i, j | 0 <= i < j < |order| :: order[i] != order[j])
  }

  function Listing(reqs: Requests, order: seq<DevId>): seq<IoRequest>
    requires forall d <- order :: d in reqs
  {
    seq(|order|, i requires 0 <= i < |order| => reqs[order[i]].io)
  }

  lemma ListingEnumerates(reqs: Requests, order: seq<DevId>)
    requires SoundRequests(reqs) && Visits(order, reqs)
    ensures Enumerates(Listing(reqs, order), reqs)
  {
    var rs := Listing(reqs, order);
    forall d | d in reqs
      ensures reqs[d].io in rs
    {
      var i :| 0 <= i < |order| && order[i] == d;
      assert rs[i] == reqs[d].io;
    }
  }

  function Restricted(reqs: Requests, devs: seq<DevId>): Requests {
    map d | d in devs && d in reqs :: reqs[d]
  }

  /** How far a walk gets before it meets a device that is not known. */
  function FirstUnknown(known: set<DevId>, order: seq<DevId>): nat {
    if order == [] || order[0] !in known then 0 else 1 + FirstUnknown(known, order[1..])
  }

  lemma {:induction false} FirstUnknownIs(known: set<DevId>, order: seq<DevId>, i: nat)
    requires i <= |order| && (forall j | 0 <= j < i :: order[j] in known) && (i < |order| ==> order[i] !in known)
    ensures FirstUnknown(known, order) == i
  {
    if i > 0 {
      FirstUnknownIs(known, order[1..], i - 1);
    }
  }

  lemma AllKnownIff(reqs: Requests, known: set<DevId>, order: seq<DevId>, i: nat)
    requires Visits(order, reqs)
    requires i <= |order| && (forall j | 0 <= j < i :: order[j] in known) && (i < |order| ==> order[i] !in known)
    ensures FirstUnknown(known, order) == i && (i == |order| <==> reqs.Keys <= known)
  {
    FirstUnknownIs(known, order, i);
    if i < |order| {
      assert order[i] in order;
    }
  }

  lemma DebitedSoFar(disks: Disks, next: Disks, reqs: Requests, order: seq<DevId>, done: nat)
    requires done <= |order| && next.Keys == disks.Keys && forall j | 0 <= j < |order| :: order[j] in reqs
    requires forall d <- next ::
               next[d] == if d in order[..done] then Debited(disks[d], Charge(reqs[d].io)) else disks[d]
    ensures next == DebitAll(disks, Restricted(reqs, order[..done]))
  {
  }

  lemma RestrictedAll(reqs: Requests, order: seq<DevId>)
    requires Visits(order, reqs)
    ensures Restricted(reqs, order[..|order|]) == reqs
  {
    assert order[..|order|] == order;
  }

  /** What the pods of the ledger hold on one device. */
  function LoadOn(dev: DevId): PodRequest -> Amount {
    (p: PodRequest) => Reserved(dev, p.requests)
  }

  ghost function Load(dev: DevId, ledger: Pods): Amount {
    Sum(ledger, LoadOn(dev))
  }

  /** The guaranteed pool of a device as InitNodeStatus recomputes it. */
  ghost function FreshGa(rc: ResourceConfig, dev: DevId, ledger: Pods): Pool
    requires dev in rc.devices
  {
    var c := rc.devices[dev];
    var held := Load(dev, ledger);
    Pool(Share(100 - rc.bePool, c.capacityIn) as real - held.rd,
         Share(100 - rc.bePool, c.capacityOut) as real - held.wr,
         Share(100 - rc.bePool, c.capacityTotal) as real - held.rd - held.wr,
         false, 0)
  }

  ghost function Rebuilt(disks: Disks, rc: ResourceConfig, ledger: Pods): Disks {
    map d | d in disks :: RebuiltDisk(disks[d], rc, d, ledger)
  }

  ghost function RebuiltDisk(info: DiskInfo, rc: ResourceConfig, d: DevId, ledger: Pods): DiskInfo {
    if d in rc.devices then info.(ga := FreshGa(rc, d, ledger), be := info.be.(num := Load(d, ledger).n)) else info
  }

  // ---------------------------------------------------------------- admission

  /** The admission test of CanAdmitPod on one device. */
  predicate Fits(d: DiskInfo, req: DeviceRequest)
    requires req.io.qos == GA ==> req.io.dev.Some? && req.io.dev.value.request.Some?
    requires d.be.num >= 0
  {
    && req.storage <= d.capacity - d.requestedDiskSpace
    && match req.io.qos
       case GA =>
         var q := req.io.dev.value.request.value;
         && !d.ga.pressured
         && q.inbps + q.outbps <= d.ga.total
         && q.inbps <= d.ga.rd
         && q.outbps <= d.ga.wr
       case BT => true
       case BE =>
         var sharers := (d.be.num + 1) as real;
         && !d.be.pressured
         && d.be.total / sharers > d.beDefaultRead + d.beDefaultWrite
         && d.be.rd / sharers > d.beDefaultRead
         && d.be.wr / sharers > d.beDefaultWrite
  }

  predicate CountsValid(disks: Disks) {
    forall d <- disks :: disks[d].be.num >= 0
  }

  predicate CanAdmit(disks: Disks, reqs: Requests)
    requires SoundRequests(reqs) && CountsValid(disks)
  {
    forall d <- reqs :: d in disks && Fits(disks[d], reqs[d])
  }

  // ---------------------------------------------------------------- numbers from the agent

  /** What a status resource has for one device: the guaranteed pool, and whether the best-effort pool
      is under pressure. */
  datatype DeviceStatus = DeviceStatus(ga: Option<Pool>, be: Option<bool>)

  type Statuses = map<DevId, DeviceStatus>

  /** calculateDiskStatus: numbers the agent has not filled in yet change nothing; a device that is
      not in the status is emptied. */
  function Overwritten(info: DiskInfo, status: Statuses, d: DevId): DiskInfo {
    var ga := if d in status then status[d].ga else None;
    if ga.Some? && ga.value.rd < 0.0 then info
    else info.(ga := if ga.Some? then ga.value else Pool(0.0, 0.0, 0.0, false, 0),
               be := info.be.(pressured := d in status && status[d].be == Some(true)))
  }

  function AllOverwritten(disks: Disks, status: Statuses): Disks {
    map d | d in disks :: Overwritten(disks[d], status, d)
  }

  // ---------------------------------------------------------------- the cache object

  class Resource {
    var disks: Disks

    /** AddCacheNodeInfo leaves the guaranteed pools empty until InitNodeStatus fills them. */
    constructor (disks: Disks)
      ensures this.disks == disks
    {
      this.disks := disks;
    }

    method CanAdmitPod(reqs: Requests) returns (ok: bool)
      requires SoundRequests(reqs) && CountsValid(disks)
      ensures ok == CanAdmit(disks, reqs)
    {
      var todo := reqs.Keys;
      while todo != {}
        invariant todo <= reqs.Keys
        invariant forall d <- reqs.Keys - todo :: d in disks && Fits(disks[d], reqs[d])
      {
        var d :| d in todo;
        if d !in disks || !Fits(disks[d], reqs[d]) {
          return false;
        }
        todo := todo - {d};
      }
      ok := true;
    }

    /** Debits every requested device, in the order the map happens to be walked, and returns the
        requests to be entered in the ledger.  When a device is unknown the devices visited before
        it stay debited. */
    method AddPod(reqs: Requests, order: seq<DevId>) returns (r: Result<seq<IoRequest>>)
      requires Visits(order, reqs)
      modifies this
      ensures r.Ok? <==> reqs.Keys <= old(disks).Keys
      ensures r.Ok? ==> disks == DebitAll(old(disks), reqs) && r.value == Listing(reqs, order)
      ensures FirstUnknown(old(disks).Keys, order) <= |order|
      ensures r.Err? ==> disks == DebitAll(old(disks), Restricted(reqs, order[..FirstUnknown(old(disks).Keys, order)]))
    {
      var done, listed := DebitInOrder(reqs, order);
      AllKnownIff(reqs, old(disks).Keys, order, done);
      if done < |order| {
        return Err("node doesn't contain the device");
      }
      RestrictedAll(reqs, order);
      r := Ok(listed);
    }

    /** AddPod's loop: how many devices it got through. */
    method DebitInOrder(reqs: Requests, order: seq<DevId>) returns (done: nat, listed: seq<IoRequest>)
      requires forall j | 0 <= j < |order| :: order[j] in reqs
      requires forall i, j | 0 <= i < j < |order| :: order[i] != order[j]
      modifies this
      ensures done <= |order| && (done < |order| ==> order[done] !in old(disks))
      ensures forall j | 0 <= j < done :: order[j] in old(disks)
      ensures disks == DebitAll(old(disks), Restricted(reqs, order[..done]))
      ensures listed == Listing(reqs, order)[..done]
    {
      done, listed := 0, [];
      ghost var all := Listing(reqs, order);
      while done < |order|
        invariant done <= |order|
        invariant forall j | 0 <= j < done :: order[j] in old(disks)
        invariant disks.Keys == old(disks).Keys
        invariant forall d <- disks ::
                    disks[d] == if d in order[..done] then Debited(old(disks)[d], Charge(reqs[d].io)) else old(disks)[d]
        invariant listed == all[..done]
      {
        var d := order[done];
        if d !in disks {
          break;
        }
        assert d !in order[..done] && order[..done + 1] == order[..done] + [d];
        disks := disks[d := Debited(disks[d], Charge(reqs[d].io))];
        listed := listed + [reqs[d].io];
        done := done + 1;
      }
      DebitedSoFar(old(disks), disks, reqs, order, done);
    }

    /** Gives back what the ledger says the pod holds.  Without a ledger entry nothing is given
        back, and an unknown device stops the loop half way. */
    method RemovePod(entry: Option<PodRequest>) returns (r: Result<()>)
      requires entry.Some? ==> SoundEntry(entry.value)
      modifies this
      ensures entry.None? ==> r.Err? && disks == old(disks)
      ensures entry.Some? ==>
                && (r.Ok? <==> AllKnown(old(disks), entry.value.requests))
                && disks == CreditAll(old(disks), entry.value.requests)
    {
      if entry.None? {
        return Err("pod doesn't exist in reserved pod cache");
      }
      var rs := entry.value.requests;
      for i := 0 to |rs|
        invariant disks.Keys == old(disks).Keys
        invariant AllKnown(old(disks), rs[..i])
        invariant CreditAll(disks, rs[i..]) == CreditAll(old(disks), rs)
      {
        var x := rs[i];
        assert x in rs && rs[i..][0] == x && rs[i..][1..] == rs[i + 1..];
        assert rs[..i + 1] == rs[..i] + [x];
        if !Known(disks, x) {
          assert !Known(old(disks), x);
          return Err("node doesn't contain the device");
        }
        disks := CreditOne(disks, x);
      }
      assert rs[..|rs|] == rs && rs[|rs|..] == [];
      r := Ok(());
    }

    /** Takes the numbers of a status, if they were computed for the ledger as it is. */
    method UpdateCacheNodeStatus(status: Statuses, observed: int, generation: int)
      modifies this
      ensures disks == if status != map[] && observed == generation then AllOverwritten(old(disks), status)
                       else old(disks)
    {
      if status == map[] || observed != generation {
        return;
      }
      var todo := disks.Keys;
      while todo != {}
        invariant todo <= disks.Keys == old(disks).Keys
        invariant forall d <- disks ::
                    disks[d] == if d in todo then old(disks)[d] else Overwritten(old(disks)[d], status, d)
      {
        var dev :| dev in todo;
        todo := todo - {dev};
        var ga, be := Pool(0.0, 0.0, 0.0, false, 0), false;
        if dev in status {
          if status[dev].ga.Some? {
            if status[dev].ga.value.rd < 0.0 {
              continue;
            }
            ga := status[dev].ga.value;
          }
          if status[dev].be.Some? {
            be := status[dev].be.value;
          }
        }
        disks := disks[dev := disks[dev].(ga := ga, be := disks[dev].be.(pressured := be))];
      }
    }

    /** Recomputes the pools from the ledger, visiting devices and pods in any order. */
    method InitNodeStatus(rc: ResourceConfig, ledger: Pods)
      modifies this
      ensures disks == Rebuilt(old(disks), rc, ledger)
    {
      var todo := rc.devices.Keys;
      while todo != {}
        invariant todo <= rc.devices.Keys
        invariant disks.Keys == old(disks).Keys
        invariant forall d <- disks ::
                    disks[d] == if d in todo then old(disks)[d] else RebuiltDisk(old(disks)[d], rc, d, ledger)
      {
        var dev :| dev in todo;
        todo := todo - {dev};
        if dev in disks {
          RebuildDisk(dev, rc, ledger);
        }
      }
    }

    method RebuildDisk(dev: DevId, rc: ResourceConfig, ledger: Pods)
      requires dev in disks && dev in rc.devices
      modifies this
      ensures disks == old(disks)[dev := RebuiltDisk(old(disks)[dev], rc, dev, ledger)]
    {
      var rd, wr, num := SumReserved(dev, ledger);
      var c := rc.devices[dev];
      var ga := Pool(Share(100 - rc.bePool, c.capacityIn) as real - rd,
                     Share(100 - rc.bePool, c.capacityOut) as real - wr,
                     Share(100 - rc.bePool, c.capacityTotal) as real - rd - wr,
                     false, 0);
      disks := disks[dev := disks[dev].(ga := ga, be := disks[dev].be.(num := num))];
    }

    method SumReserved(dev: DevId, ledger: Pods) returns (rd: real, wr: real, num: int)
      ensures Amount(rd, wr, num) == Load(dev, ledger)
    {
      rd, wr, num := 0.0, 0.0, 0;
      var todo := ledger.Keys;
      assert ledger - todo == map[];
      while todo != {}
        invariant todo <= ledger.Keys
        invariant Amount(rd, wr, num) == Sum(ledger - todo, LoadOn(dev))
      {
        var uid :| uid in todo;
        var r, w, isBe := CalculateReservedBw(dev, ledger[uid].requests);
        SumVisit(ledger, LoadOn(dev), todo, uid);
        rd, wr, num := rd + r, wr + w, num + if isBe then 1 else 0;
        todo := todo - {uid};
      }
      assert ledger - todo == ledger;
    }
  }
}
