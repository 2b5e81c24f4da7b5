/** The scheduler plugin: Filter, Reserve, Unreserve and pod deletion as steps over the disk cache
    and the ledger (pkg/scheduler/plugin.go, pkg/scheduler/resource/eventhandler.go). */
module Scheduler {
  import opened IoTypes
  import opened Sums
  import opened DiskCache
  import opened Ledger

  /** What a resource handle other than block I/O answers when a pod is reserved. */
  datatype Outcome = Refused | Failed(critical: bool) | Granted(requests: seq<IoRequest>)

  /** One turn of Reserve's loop over the resource handles.  The block I/O handle may fail to record
      the claim-to-device mapping after it has debited its cache. */
  datatype Turn = Disk(mapped: bool, critical: bool) | Other(outcome: Outcome)

  /** Who passed Filter last, and with which request; Reserve uses it up. */
  datatype Pending = Pending(uid: Uid, requests: Requests)

  datatype Sys = Sys(disks: Disks, ctx: Context, pending: Option<Pending>)

  datatype Progress = Progress(disks: Disks, listed: seq<IoRequest>, aborted: bool)

  /** Reserve's loop; `listing` is the order in which the requests map was walked. */
  function Walk(disks: Disks, listed: seq<IoRequest>, turns: seq<Turn>, reqs: Requests,
                listing: seq<IoRequest>): Progress
    decreases |turns|
  {
    if turns == [] then Progress(disks, listed, false)
    else
      match turns[0]
      case Other(Refused) => Progress(disks, listed, true)
      case Other(Failed(critical)) =>
        if critical then Progress(disks, listed, true) else Walk(disks, listed, turns[1..], reqs, listing)
      case Other(Granted(rs)) => Walk(disks, listed + rs, turns[1..], reqs, listing)
      case Disk(mapped, critical) =>
        var debited := DebitAll(disks, reqs);
        if mapped then Walk(debited, listed + listing, turns[1..], reqs, listing)
        else if critical then Progress(debited, listed, true)
        else Walk(debited, listed, turns[1..], reqs, listing)
  }

  /** Block I/O cannot be mapped when some requested device is not cached. */
  function Attainable(turns: seq<Turn>, known: bool): seq<Turn> {
    seq(|turns|, i requires 0 <= i < |turns| =>
      if turns[i].Disk? && !known then turns[i].(mapped := false) else turns[i])
  }

  /** The requests that block I/O gets to debit: those before the first device that is not cached. */
  function Debitable(disks: Disks, reqs: Requests, order: seq<DevId>): Requests {
    if reqs.Keys <= disks.Keys then reqs
    else
      var n := FirstUnknown(disks.Keys, order);
      if n <= |order| then Restricted(reqs, order[..n]) else reqs
  }

  lemma AllAttainable(disks: Disks, turns: seq<Turn>, reqs: Requests, order: seq<DevId>)
    requires reqs.Keys <= disks.Keys
    ensures Attainable(turns, true) == turns && Debitable(disks, reqs, order) == reqs
  {
  }

  function AfterReserve(s: Sys, uid: Uid, pod: PodRef, turns: seq<Turn>, reqs: Requests, listing: seq<IoRequest>): Sys {
    var p := Walk(s.disks, [], turns, reqs, listing);
    var t := s.(disks := p.disks, pending := None);
    if p.aborted || p.listed == [] then t
    else t.(ctx := WithPod(s.ctx, uid, PodRequest(pod.name, pod.namespace, p.listed)))
  }

  /** Gives the cached bandwidth back, as far as the devices are known, if the ledger knows the pod, and
      then takes the pod out of the ledger of the node it names. */
  function AfterRelease(s: Sys, uid: Uid, recorded: bool): Sys {
    var disks := if uid in s.ctx.pods then CreditAll(s.disks, s.ctx.pods[uid].requests) else s.disks;
    s.(disks := disks, ctx := if recorded then WithoutPod(s.ctx, uid) else s.ctx)
  }

  // ---------------------------------------------------------------- the plugin object

  class ResourceIo {
    const disk: Resource
    const ctx: ResourceIoContext
    var pending: Option<Pending>

    ghost function State(): Sys
      reads this, disk, ctx
    {
      Sys(disk.disks, ctx.State(), pending)
    }

    constructor (disk: Resource, ctx: ResourceIoContext)
      ensures this.disk == disk && this.ctx == ctx && pending == None
    {
      this.disk, this.ctx, pending := disk, ctx, None;
    }

    method Filter(uid: Uid, reqs: Requests) returns (ok: bool)
      requires SoundRequests(reqs) && CountsValid(disk.disks)
      modifies this
      ensures ok == CanAdmit(disk.disks, reqs)
      ensures State() == old(State()).(pending := if ok then Some(Pending(uid, reqs)) else None)
    {
      ok := disk.CanAdmitPod(reqs);
      pending := if ok then Some(Pending(uid, reqs)) else None;
    }

    /** The handles are asked in the order of `turns`. */
    method Reserve(uid: Uid, pod: PodRef, turns: seq<Turn>, reqs: Requests, order: seq<DevId>) returns (ok: bool)
      requires SoundRequests(reqs) && Visits(order, reqs)
      modifies this, disk, ctx
      ensures var t := Attainable(turns, reqs.Keys <= old(disk.disks).Keys);
              var debits := Debitable(old(disk.disks), reqs, order);
              && State() == AfterReserve(old(State()), uid, pod, t, debits, Listing(reqs, order))
              && ok == !Walk(old(disk.disks), [], t, debits, Listing(reqs, order)).aborted
    {
      ghost var before := disk.disks;
      ghost var listing := Listing(reqs, order);
      ghost var known := reqs.Keys <= before.Keys;
      ghost var debits := Debitable(before, reqs, order);
      var listed: seq<IoRequest> := [];
      pending := None;
      for i := 0 to |turns|
        invariant ctx.State() == old(ctx.State()) && pending == None
        invariant disk.disks.Keys == before.Keys
        invariant Walk(disk.disks, listed, Attainable(turns[i..], known), debits, listing) ==
                  Walk(before, [], Attainable(turns, known), debits, listing)
      {
        ghost var rest := Attainable(turns[i..], known);
        assert rest[1..] == Attainable(turns[i + 1..], known);
        match turns[i]
        case Other(Refused) => return false;
        case Other(Failed(critical)) =>
          if critical {
            return false;
          }
        case Other(Granted(rs)) => listed := listed + rs;
        case Disk(mapped, critical) =>
          var r := disk.AddPod(reqs, order);
          if r.Ok? && mapped {
            listed := listed + r.value;
          } else if critical {
            return false;
          }
      }
      if listed != [] {
        ctx.AddPod(uid, PodRequest(pod.name, pod.namespace, listed));
      }
      ok := true;
    }

    /** Unreserve, and DeletePod for an annotated pod. */
    method Unreserve(uid: Uid, podNode: string)
      requires uid in ctx.pods ==> SoundEntry(ctx.pods[uid])
      modifies disk, ctx
      ensures State() == AfterRelease(old(State()), uid, podNode == ctx.node)
    {
      var entry := if uid in ctx.pods then Some(ctx.pods[uid]) else None;
      var given := disk.RemovePod(entry);
      var taken := ctx.RemovePod(uid, podNode);
    }

    /** A deleted pod without the allocated-io annotation is ignored. */
    method DeletePod(uid: Uid, podNode: string, annotated: bool)
      requires uid in ctx.pods ==> SoundEntry(ctx.pods[uid])
      modifies disk, ctx
      ensures State() == if annotated then AfterRelease(old(State()), uid, podNode == ctx.node) else old(State())
    {
      if annotated {
        Unreserve(uid, podNode);
      }
    }
  }

  // ---------------------------------------------------------------- cache and ledger agree

  /** The numbers in the cache are the ones InitNodeStatus would compute from the ledger. */
  ghost predicate Agrees(disks: Disks, rc: ResourceConfig, pods: Pods) {
    && disks.Keys == rc.devices.Keys
    && forall d <- disks :: disks[d].ga == FreshGa(rc, d, pods) && disks[d].be.num == Load(d, pods).n
  }

  /** Agreement is the same thing as the rebuild changing nothing. */
  lemma AgreesIffRebuildIdle(disks: Disks, rc: ResourceConfig, pods: Pods)
    requires disks.Keys == rc.devices.Keys
    ensures Agrees(disks, rc, pods) <==> Rebuilt(disks, rc, pods) == disks
  {
    var r := Rebuilt(disks, rc, pods);
    if r == disks {
      forall d | d in disks
        ensures disks[d].ga == FreshGa(rc, d, pods) && disks[d].be.num == Load(d, pods).n
      {
        assert r[d] == disks[d];
      }
    }
  }

  /** The ledger's entries are clean and name cached devices. */
  ghost predicate Tidy(disks: Disks, pods: Pods) {
    forall u <- pods :: Clean(pods[u].requests) && AllKnown(disks, pods[u].requests)
  }

  function ChargeOn(reqs: Requests, d: DevId): Amount {
    if d in reqs then Charge(reqs[d].io) else Zero
  }

  /** If the ledger's load moves by `delta`, the caches that still agree are those whose pools moved
      by the same amount. */
  lemma AgreesAfterShift(disks: Disks, rc: ResourceConfig, pods: Pods, next: Disks, pods': Pods, d: DevId,
                         delta: Amount)
    requires Agrees(disks, rc, pods) && d in disks && d in next
    requires Load(d, pods') == Load(d, pods).Plus(delta)
    ensures (next[d].ga == FreshGa(rc, d, pods') && next[d].be.num == Load(d, pods').n)
       <==> (next[d].ga == Debited(disks[d], delta).ga && next[d].be.num == Debited(disks[d], delta).be.num)
  {
  }

  predicate Silent(rs: seq<IoRequest>) {
    forall i | 0 <= i < |rs| :: rs[i].ioType != DiskIO
  }

  lemma {:induction false} ReservedBetween(d: DevId, a: seq<IoRequest>, rs: seq<IoRequest>, b: seq<IoRequest>)
    requires Silent(a) && Silent(b)
    ensures Reserved(d, a + rs + b) == Reserved(d, rs)
    decreases |a|, |rs|
  {
    if a != [] {
      assert (a + rs + b)[1..] == a[1..] + rs + b;
      ReservedBetween(d, a[1..], rs, b);
    } else if rs != [] {
      assert (a + rs + b)[1..] == a + rs[1..] + b;
      ReservedBetween(d, a, rs[1..], b);
    } else {
      assert a + rs + b == b;
      assert forall r <- b :: !Asks(r, d);
      ReservedNothing(d, b);
    }
  }

  /** A list that carries exactly the requests `reqs`, among those of other resources. */
  ghost predicate Carries(listed: seq<IoRequest>, reqs: Requests) {
    && Clean(listed)
    && (forall r <- listed :: r.ioType == DiskIO ==> r.dev.value.devName in reqs)
    && (forall d :: Reserved(d, listed) == ChargeOn(reqs, d))
  }

  lemma ListingCarries(a: seq<IoRequest>, rs: seq<IoRequest>, b: seq<IoRequest>, reqs: Requests)
    requires Silent(a) && Silent(b) && SoundRequests(reqs) && Enumerates(rs, reqs)
    ensures Carries(a + rs + b, reqs)
  {
    var listed := a + rs + b;
    forall d
      ensures Reserved(d, listed) == ChargeOn(reqs, d)
    {
      ReservedBetween(d, a, rs, b);
      if d in reqs {
        var i :| 0 <= i < |rs| && rs[i] == reqs[d].io;
        assert Clean(rs);
        assert rs[i] in rs;
        ReservedIsCharge(d, rs, i);
      } else {
        ReservedNothing(d, rs);
      }
    }
  }

  // ---------------------------------------------------------------- one Reserve

  /** Reserve asks the handles `before`, then block I/O, then the handles `after`. */
  datatype Plan = Plan(before: seq<Outcome>, mapped: bool, critical: bool, after: seq<Outcome>)

  function Turns(p: Plan): seq<Turn> {
    Others(p.before) + [Disk(p.mapped, p.critical)] + Others(p.after)
  }

  function Others(os: seq<Outcome>): seq<Turn> {
    seq(|os|, i requires 0 <= i < |os| => Other(os[i]))
  }

  /** Handles of other resources grant no disk requests. */
  predicate OwnRequests(os: seq<Outcome>) {
    forall i | 0 <= i < |os| :: os[i].Granted? ==> Silent(os[i].requests)
  }

  predicate Aborts(os: seq<Outcome>) {
    exists i | 0 <= i < |os| :: os[i].Refused? || (os[i].Failed? && os[i].critical)
  }

  function Grants(os: seq<Outcome>): seq<IoRequest> {
    if os == [] then []
    else (if os[0].Granted? then os[0].requests else []) + Grants(os[1..])
  }

  lemma {:induction false} GrantsSilent(os: seq<Outcome>)
    requires OwnRequests(os)
    ensures Silent(Grants(os))
  {
    if os != [] {
      GrantsSilent(os[1..]);
    }
  }

  lemma {:induction false} WalkOthers(disks: Disks, listed: seq<IoRequest>, os: seq<Outcome>, rest: seq<Turn>,
                                      reqs: Requests, listing: seq<IoRequest>)
    ensures var p := Walk(disks, listed, Others(os) + rest, reqs, listing);
            if Aborts(os) then p.aborted && p.disks == disks
            else p == Walk(disks, listed + Grants(os), rest, reqs, listing)
    decreases |os|
  {
    if os == [] {
      assert Others(os) + rest == rest && listed + Grants(os) == listed;
    } else {
      var turns := Others(os) + rest;
      assert turns[0] == Other(os[0]) && turns[1..] == Others(os[1..]) + rest;
      var now := if os[0].Granted? then os[0].requests else [];
      assert listed + Grants(os) == listed + now + Grants(os[1..]);
      assert listed + [] == listed;
      WalkOthers(disks, listed + now, os[1..], rest, reqs, listing);
      if Aborts(os) && !(os[0].Refused? || (os[0].Failed? && os[0].critical)) {
        var i :| 0 <= i < |os| && (os[i].Refused? || (os[i].Failed? && os[i].critical));
        assert os[1..][i - 1] == os[i];
      }
    }
  }

  predicate Completes(p: Plan) {
    !Aborts(p.before) && (p.mapped || !p.critical) && !Aborts(p.after)
  }

  function Entered(p: Plan, listing: seq<IoRequest>): seq<IoRequest> {
    Grants(p.before) + (if p.mapped then listing else []) + Grants(p.after)
  }

  lemma WalkPlan(disks: Disks, p: Plan, reqs: Requests, listing: seq<IoRequest>)
    ensures var w := Walk(disks, [], Turns(p), reqs, listing);
            && w.aborted == !Completes(p)
            && w.disks == (if Aborts(p.before) then disks else DebitAll(disks, reqs))
            && (Completes(p) ==> w.listed == Entered(p, listing))
  {
    var rest := [Disk(p.mapped, p.critical)] + Others(p.after);
    assert Turns(p) == Others(p.before) + rest;
    WalkOthers(disks, [], p.before, rest, reqs, listing);
    assert [] + Grants(p.before) == Grants(p.before);
    assert rest[1..] == Others(p.after) == Others(p.after) + [];
    var debited := DebitAll(disks, reqs);
    var listed := Grants(p.before) + (if p.mapped then listing else []);
    assert Grants(p.before) + [] == Grants(p.before);
    WalkOthers(debited, listed, p.after, [], reqs, listing);
  }

  function Minus(a: Amount, b: Amount): Amount {
    Amount(a.rd - b.rd, a.wr - b.wr, a.n - b.n)
  }

  lemma LoadAfterEntry(d: DevId, pods: Pods, uid: Uid, p: PodRequest)
    ensures Load(d, pods[uid := p]) == Load(d, pods).Plus(
              Minus(Reserved(d, p.requests), if uid in pods then Reserved(d, pods[uid].requests) else Zero))
  {
    if uid in pods {
      SumReplace(pods, LoadOn(d), uid, p);
      Exchange(LoadOn(d)(pods[uid]), LoadOn(d)(p), Sum(pods - {uid}, LoadOn(d)));
    } else {
      SumInsert(pods, LoadOn(d), uid, p);
      Exchange(Zero, LoadOn(d)(p), Load(d, pods));
    }
  }

  lemma Exchange(was: Amount, now: Amount, others: Amount)
    ensures now.Plus(others) == was.Plus(others).Plus(Minus(now, was))
    ensures Zero.Plus(others) == others
  {
  }

  lemma LoadAfterRemoval(d: DevId, pods: Pods, uid: Uid)
    requires uid in pods
    ensures Load(d, pods) == Reserved(d, pods[uid].requests).Plus(Load(d, pods - {uid}))
  {
    SumWithout(pods, LoadOn(d), uid);
  }

  ghost predicate Charged(reqs: Requests) {
    forall d <- reqs :: Charge(reqs[d].io).NonNegative()
  }

  ghost predicate Loads(p: PodRequest) {
    forall d :: Reserved(d, p.requests).NonNegative()
  }

  /** Before the call: will the reservation be written to the ledger? */
  predicate Writes(p: Plan, listing: seq<IoRequest>) {
    Completes(p) && Entered(p, listing) != []
  }

  function Held(pods: Pods, uid: Uid, d: DevId): Amount {
    if uid in pods then Reserved(d, pods[uid].requests) else Zero
  }

  lemma DebitExact(d: DiskInfo, x: Amount, y: Amount)
    ensures Debited(d, x).ga == Debited(d, y).ga && Debited(d, x).be.num == Debited(d, y).be.num <==> x == y
    ensures Debited(d, Zero) == d
  {
    assert Debited(d, x).ga.rd == d.ga.rd - x.rd && Debited(d, y).ga.rd == d.ga.rd - y.rd;
    assert Debited(d, x).ga.wr == d.ga.wr - x.wr && Debited(d, y).ga.wr == d.ga.wr - y.wr;
  }

  lemma PlusZero(a: Amount)
    ensures a.Plus(Zero) == a
  {
  }

  lemma MinusZero(a: Amount)
    ensures Minus(Zero, a) == Zero <==> a == Zero
  {
    assert Minus(Zero, a).rd == -a.rd && Minus(Zero, a).wr == -a.wr;
  }

  lemma EnteredLoad(p: Plan, reqs: Requests, order: seq<DevId>, d: DevId)
    requires SoundRequests(reqs) && Visits(order, reqs) && OwnRequests(p.before) && OwnRequests(p.after)
    ensures Reserved(d, Entered(p, Listing(reqs, order))) == if p.mapped then ChargeOn(reqs, d) else Zero
  {
    GrantsSilent(p.before);
    GrantsSilent(p.after);
    if p.mapped {
      ListingEnumerates(reqs, order);
      ListingCarries(Grants(p.before), Listing(reqs, order), Grants(p.after), reqs);
    } else {
      ReservedBetween(d, Grants(p.before), [], Grants(p.after));
    }
  }

  /** What a Reserve call takes out of a device, and what it adds to the ledger's load there. */
  function Debit(p: Plan, reqs: Requests, d: DevId): Amount {
    if Aborts(p.before) then Zero else ChargeOn(reqs, d)
  }

  function Entry(p: Plan, reqs: Requests, listing: seq<IoRequest>, pods: Pods, uid: Uid, d: DevId): Amount {
    if Writes(p, listing) then Minus(if p.mapped then ChargeOn(reqs, d) else Zero, Held(pods, uid, d)) else Zero
  }

  lemma LoadAfterReserve(s: Sys, uid: Uid, pod: PodRef, p: Plan, reqs: Requests, order: seq<DevId>, d: DevId)
    requires SoundRequests(reqs) && Visits(order, reqs) && OwnRequests(p.before) && OwnRequests(p.after)
    ensures var listing := Listing(reqs, order);
            var r := AfterReserve(s, uid, pod, Turns(p), reqs, listing);
            Load(d, r.ctx.pods) == Load(d, s.ctx.pods).Plus(Entry(p, reqs, listing, s.ctx.pods, uid, d))
  {
    var listing := Listing(reqs, order);
    WalkPlan(s.disks, p, reqs, listing);
    PlusZero(Load(d, s.ctx.pods));
    if Writes(p, listing) {
      LoadAfterEntry(d, s.ctx.pods, uid, PodRequest(pod.name, pod.namespace, Entered(p, listing)));
      EnteredLoad(p, reqs, order, d);
    }
  }

  /** Reserve enters the pod under its own name, with all that was granted, exactly if it completes with
      something granted; the other pods and what is on the way stay as they are. */
  lemma ReserveEnters(s: Sys, uid: Uid, pod: PodRef, p: Plan, reqs: Requests, listing: seq<IoRequest>)
    ensures var r := AfterReserve(s, uid, pod, Turns(p), reqs, listing);
            && r.pending == None
            && (Writes(p, listing) ==>
                  && uid in r.ctx.pods && r.ctx.pods - {uid} == s.ctx.pods - {uid}
                  && r.ctx.pods[uid].name == pod.name && r.ctx.pods[uid].namespace == pod.namespace
                  && r.ctx.pods[uid].requests == Grants(p.before) + (if p.mapped then listing else []) + Grants(p.after)
                  && r.ctx.generation == s.ctx.generation + 1)
            && (!Writes(p, listing) ==> r.ctx == s.ctx)
  {
    WalkPlan(s.disks, p, reqs, listing);
  }

  lemma ReserveDebits(s: Sys, uid: Uid, pod: PodRef, p: Plan, reqs: Requests, listing: seq<IoRequest>, d: DevId)
    requires d in s.disks
    ensures var r := AfterReserve(s, uid, pod, Turns(p), reqs, listing);
            d in r.disks && r.disks[d] == Debited(s.disks[d], Debit(p, reqs, d))
  {
    WalkPlan(s.disks, p, reqs, listing);
    DebitExact(s.disks[d], Zero, Zero);
  }

  lemma ReserveOnDevice(s: Sys, rc: ResourceConfig, uid: Uid, pod: PodRef, p: Plan, reqs: Requests, order: seq<DevId>,
                        d: DevId)
    requires Agrees(s.disks, rc, s.ctx.pods) && d in s.disks
    requires SoundRequests(reqs) && Visits(order, reqs) && OwnRequests(p.before) && OwnRequests(p.after)
    ensures var listing := Listing(reqs, order);
            var r := AfterReserve(s, uid, pod, Turns(p), reqs, listing);
            && d in r.disks
            && ((r.disks[d].ga == FreshGa(rc, d, r.ctx.pods) && r.disks[d].be.num == Load(d, r.ctx.pods).n)
                <==> Debit(p, reqs, d) == Entry(p, reqs, listing, s.ctx.pods, uid, d))
  {
    var listing := Listing(reqs, order);
    var r := AfterReserve(s, uid, pod, Turns(p), reqs, listing);
    var delta := Entry(p, reqs, listing, s.ctx.pods, uid, d);
    LoadAfterReserve(s, uid, pod, p, reqs, order, d);
    ReserveDebits(s, uid, pod, p, reqs, listing, d);
    DebitExact(s.disks[d], Debit(p, reqs, d), delta);
    AgreesAfterShift(s.disks, rc, s.ctx.pods, r.disks, r.ctx.pods, d, delta);
  }

  /** Whatever is debited is recorded, and no entry that holds bandwidth is overwritten. */
  ghost predicate Books(p: Plan, reqs: Requests, listing: seq<IoRequest>, pods: Pods, uid: Uid, devs: set<DevId>) {
    && (Aborts(p.before) || (p.mapped && !Aborts(p.after)) || forall d <- devs :: ChargeOn(reqs, d) == Zero)
    && (Writes(p, listing) ==> forall d <- devs :: Held(pods, uid, d) == Zero)
  }

  lemma BooksIff(p: Plan, reqs: Requests, order: seq<DevId>, pods: Pods, uid: Uid, d: DevId)
    requires Charged(reqs) && Visits(order, reqs) && (uid in pods ==> Loads(pods[uid]))
    ensures var listing := Listing(reqs, order);
            Debit(p, reqs, d) == Entry(p, reqs, listing, pods, uid, d) <==> Books(p, reqs, listing, pods, uid, {d})
  {
    var listing := Listing(reqs, order);
    assert ChargeOn(reqs, d).NonNegative() && Held(pods, uid, d).NonNegative();
    assert d in reqs ==> d in order;
    assert d in {d};
  }

  /** A Reserve call keeps cache and ledger in agreement exactly when whatever it debits it also
      records, and it overwrites no entry that still holds bandwidth.  A plan that fails, or whose
      claim mapping fails, after block I/O was debited breaks the agreement: nothing is rolled
      back, because the ledger has no entry to roll back from. */
  lemma ReserveKeepsAgreementIff(s: Sys, rc: ResourceConfig, uid: Uid, pod: PodRef, p: Plan, reqs: Requests,
                                 order: seq<DevId>)
    requires Agrees(s.disks, rc, s.ctx.pods)
    requires SoundRequests(reqs) && Charged(reqs) && Visits(order, reqs)
    requires OwnRequests(p.before) && OwnRequests(p.after)
    requires uid in s.ctx.pods ==> Loads(s.ctx.pods[uid])
    ensures var listing := Listing(reqs, order);
            var r := AfterReserve(s, uid, pod, Turns(p), reqs, listing);
            Agrees(r.disks, rc, r.ctx.pods) <==> Books(p, reqs, listing, s.ctx.pods, uid, s.disks.Keys)
  {
    var listing := Listing(reqs, order);
    var r := AfterReserve(s, uid, pod, Turns(p), reqs, listing);
    WalkPlan(s.disks, p, reqs, listing);
    assert r.disks.Keys == s.disks.Keys;
    forall d | d in s.disks
      ensures (r.disks[d].ga == FreshGa(rc, d, r.ctx.pods) && r.disks[d].be.num == Load(d, r.ctx.pods).n)
         <==> Books(p, reqs, listing, s.ctx.pods, uid, {d})
    {
      ReserveOnDevice(s, rc, uid, pod, p, reqs, order, d);
      BooksIff(p, reqs, order, s.ctx.pods, uid, d);
    }
    assert Books(p, reqs, listing, s.ctx.pods, uid, s.disks.Keys)
      <==> forall d <- s.disks :: Books(p, reqs, listing, s.ctx.pods, uid, {d}) by {
      BooksEverywhere(p, reqs, listing, s.ctx.pods, uid, s.disks.Keys);
    }
  }

  lemma BooksEverywhere(p: Plan, reqs: Requests, listing: seq<IoRequest>, pods: Pods, uid: Uid, devs: set<DevId>)
    ensures Books(p, reqs, listing, pods, uid, devs) <==> forall d <- devs :: Books(p, reqs, listing, pods, uid, {d})
  {
    if forall d <- devs :: Books(p, reqs, listing, pods, uid, {d}) {
      forall d | d in devs
        ensures Aborts(p.before) || (p.mapped && !Aborts(p.after)) || ChargeOn(reqs, d) == Zero
        ensures Writes(p, listing) ==> Held(pods, uid, d) == Zero
      {
        assert Books(p, reqs, listing, pods, uid, {d}) && d in {d};
      }
    }
  }

  // ---------------------------------------------------------------- one release

  lemma {:induction false} CreditUntouched(disks: Disks, rs: seq<IoRequest>, d: DevId)
    requires AllKnown(disks, rs) && d in disks
    requires forall i | 0 <= i < |rs| :: !Asks(rs[i], d)
    ensures CreditAll(disks, rs)[d] == disks[d]
    decreases |rs|
  {
    if rs != [] {
      CreditUntouched(CreditOne(disks, rs[0]), rs[1..], d);
    }
  }

  lemma {:induction false} CreditTouched(disks: Disks, rs: seq<IoRequest>, d: DevId, i: nat)
    requires AllKnown(disks, rs) && Clean(rs) && d in disks && i < |rs| && Asks(rs[i], d)
    ensures CreditAll(disks, rs)[d] == Credited(disks[d], rs[i])
    decreases |rs|
  {
    if i == 0 {
      CreditUntouched(CreditOne(disks, rs[0]), rs[1..], d);
    } else {
      CreditTouched(CreditOne(disks, rs[0]), rs[1..], d, i - 1);
    }
  }

  ghost predicate AllLoads(pods: Pods) {
    forall u <- pods :: Loads(pods[u])
  }

  lemma LoadNonNegative(d: DevId, pods: Pods)
    requires AllLoads(pods)
    ensures Load(d, pods).NonNegative()
  {
    forall u | u in pods
      ensures LoadOn(d)(pods[u]).NonNegative()
    {
      assert Loads(pods[u]);
    }
    SumNonNegative(pods, LoadOn(d));
  }

  /** In an agreeing state the counter of best-effort pods covers every pod of the ledger, so the
      clamp at zero does not fire. */
  lemma CountCovers(disks: Disks, rc: ResourceConfig, pods: Pods, uid: Uid, d: DevId)
    requires Agrees(disks, rc, pods) && AllLoads(pods)
    requires uid in pods && d in disks
    ensures disks[d].be.num >= Held(pods, uid, d).n
  {
    LoadAfterRemoval(d, pods, uid);
    LoadNonNegative(d, pods - {uid});
  }

  /** Away from the clamp a credit is the exact opposite of the debit. */
  lemma CreditUndoesDebit(disks: Disks, rs: seq<IoRequest>, d: DevId)
    requires Clean(rs) && AllKnown(disks, rs) && d in disks
    requires disks[d].be.num >= Reserved(d, rs).n
    ensures CreditAll(disks, rs)[d] == Debited(disks[d], Minus(Zero, Reserved(d, rs)))
  {
    if exists i :: 0 <= i < |rs| && Asks(rs[i], d) {
      var i :| 0 <= i < |rs| && Asks(rs[i], d);
      CreditTouched(disks, rs, d, i);
      ReservedIsCharge(d, rs, i);
      CreditIsNegativeDebit(disks[d], rs[i]);
    } else {
      CreditUntouched(disks, rs, d);
      ReservedNothing(d, rs);
      DebitExact(disks[d], Zero, Zero);
      assert Minus(Zero, Zero) == Zero;
    }
  }

  lemma CreditIsNegativeDebit(d: DiskInfo, r: IoRequest)
    requires d.be.num >= Charge(r).n
    ensures Credited(d, r) == Debited(d, Minus(Zero, Charge(r)))
  {
    CreditedCount(d, r);
    var a := Charge(r);
    var b := Minus(Zero, a);
    assert b.rd == -a.rd && b.wr == -a.wr && b.n == -a.n;
    assert d.ga.rd + a.rd == d.ga.rd - b.rd && d.ga.wr + a.wr == d.ga.wr - b.wr;
    assert d.ga.total + (a.rd + a.wr) == d.ga.total - (b.rd + b.wr);
  }

  lemma CreditedCount(d: DiskInfo, r: IoRequest)
    requires d.be.num >= Charge(r).n
    ensures Credited(d, r).be.num == d.be.num - Charge(r).n
  {
    match r.qos
    case GA =>
    case BT =>
    case BE =>
  }

  /** Unreserve keeps cache and ledger in agreement exactly when the pod names the node it is taken
      from, or held no disk bandwidth there: the cache is credited under the node argument but the
      ledger is looked up under the node recorded in the pod. */
  lemma ReleaseKeepsAgreementIff(s: Sys, rc: ResourceConfig, uid: Uid, recorded: bool)
    requires Agrees(s.disks, rc, s.ctx.pods) && Tidy(s.disks, s.ctx.pods) && AllLoads(s.ctx.pods)
    ensures var r := AfterRelease(s, uid, recorded);
            Agrees(r.disks, rc, r.ctx.pods) <==> recorded || forall d <- s.disks :: Held(s.ctx.pods, uid, d) == Zero
  {
    var r := AfterRelease(s, uid, recorded);
    assert r.disks.Keys == s.disks.Keys;
    forall d | d in s.disks
      ensures (r.disks[d].ga == FreshGa(rc, d, r.ctx.pods) && r.disks[d].be.num == Load(d, r.ctx.pods).n)
         <==> (recorded || Held(s.ctx.pods, uid, d) == Zero)
    {
      ReleaseOnDevice(s, rc, uid, recorded, d);
    }
  }

  lemma ReleaseOnDevice(s: Sys, rc: ResourceConfig, uid: Uid, recorded: bool, d: DevId)
    requires Agrees(s.disks, rc, s.ctx.pods) && Tidy(s.disks, s.ctx.pods) && AllLoads(s.ctx.pods)
    requires d in s.disks
    ensures var r := AfterRelease(s, uid, recorded);
            && d in r.disks
            && ((r.disks[d].ga == FreshGa(rc, d, r.ctx.pods) && r.disks[d].be.num == Load(d, r.ctx.pods).n)
                <==> (recorded || Held(s.ctx.pods, uid, d) == Zero))
  {
    var r := AfterRelease(s, uid, recorded);
    var held := Held(s.ctx.pods, uid, d);
    var back := Minus(Zero, held);
    var delta := if recorded then back else Zero;
    LoadAfterRelease(s.ctx.pods, uid, d);
    PlusZero(Load(d, s.ctx.pods));
    DebitExact(s.disks[d], back, delta);
    if uid in s.ctx.pods {
      CountCovers(s.disks, rc, s.ctx.pods, uid, d);
      CreditUndoesDebit(s.disks, s.ctx.pods[uid].requests, d);
    } else {
      DebitExact(s.disks[d], back, Zero);
    }
    assert r.disks[d] == Debited(s.disks[d], back);
    MinusZero(held);
    AgreesAfterShift(s.disks, rc, s.ctx.pods, r.disks, r.ctx.pods, d, delta);
  }

  lemma LoadAfterRelease(pods: Pods, uid: Uid, d: DevId)
    ensures Load(d, pods - {uid}) == Load(d, pods).Plus(Minus(Zero, Held(pods, uid, d)))
  {
    if uid in pods {
      LoadAfterRemoval(d, pods, uid);
      TakeBack(Held(pods, uid, d), Load(d, pods - {uid}));
    } else {
      assert pods - {uid} == pods;
      PlusZero(Load(d, pods));
    }
  }

  lemma TakeBack(held: Amount, others: Amount)
    ensures held.Plus(others).Plus(Minus(Zero, held)) == others
  {
  }

  // ---------------------------------------------------------------- the two ways to lose track

  /** A node with one disk of capacity 100, of which a fifth is for best effort. */
  const NODE := ResourceConfig(20, map["d" := Device(100.0, 100.0, 100.0, 5.0, 5.0)])

  function ADisk(ga: real, total: real): Disks {
    map["d" := DiskInfo([], [], 5.0, 5.0, Pool(ga, ga, total, false, 0), Pool(20.0, 20.0, 20.0, false, 0), 1, 0)]
  }

  /** A guaranteed request of 10 in each direction. */
  const ASK := IoRequest(DiskIO, GA, Some(DevRequirement("d", Some(Quantity(10.0, 10.0, 0.0, 0.0)), None, None, None)))

  function Unreserved(): Sys {
    Sys(ADisk(80.0, 80.0), Context(0, map[], -1, [], [], map[]), None)
  }

  lemma UnreservedAgrees()
    ensures Agrees(Unreserved().disks, NODE, map[])
  {
    assert Load("d", map[]) == Zero;
    assert Share(80, 100.0) == 80;
  }

  /** A best-effort request, as of a pod without an annotation. */
  const ANY := IoRequest(DiskIO, BE, Some(DevRequirement("d", None, None, None, None)))

  /** One handle, whose claim mapping fails. */
  function Unmapped(critical: bool): seq<Turn> {
    [Disk(false, critical)]
  }

  lemma UnmappedLeaks(io: IoRequest, critical: bool)
    requires io == ASK || io == ANY
    ensures var s, reqs := Unreserved(), map["d" := DeviceRequest(io, 0)];
            && SoundRequests(reqs) && Visits(["d"], reqs)
            && var r := AfterReserve(s, "u", PodRef("p", "ns"), Unmapped(critical), reqs, Listing(reqs, ["d"]));
               !Agrees(r.disks, NODE, r.ctx.pods)
  {
    var s, reqs := Unreserved(), map["d" := DeviceRequest(io, 0)];
    var p := Plan([], false, critical, []);
    UnreservedAgrees();
    assert Charge(ASK) == Amount(10.0, 10.0, 0) && Charge(ANY) == Amount(0.0, 0.0, 1);
    assert ChargeOn(reqs, "d") != Zero;
    ReserveKeepsAgreementIff(s, NODE, "u", PodRef("p", "ns"), p, reqs, ["d"]);
    assert Turns(p) == Unmapped(critical);
  }

  /** The claim mapping of a pod that passed Filter fails after the cache was debited.  A best-effort
      pod, which is not critical, is reserved all the same; a guaranteed one, which is, is refused.
      Neither is in the ledger, and both debits stay: one more best-effort pod counted on the
      disk, or 10 less in each direction for guaranteed ones. */
  lemma FailedMappingLeaks()
    ensures var s := Unreserved(); Agrees(s.disks, NODE, s.ctx.pods)
    ensures var s, reqs := Unreserved(), map["d" := DeviceRequest(ANY, 0)];
            && SoundRequests(reqs) && CanAdmit(s.disks, reqs) && Visits(["d"], reqs)
            && !Walk(s.disks, [], Unmapped(false), reqs, Listing(reqs, ["d"])).aborted
            && var r := AfterReserve(s, "u", PodRef("p", "ns"), Unmapped(false), reqs, Listing(reqs, ["d"]));
               r.ctx == s.ctx && r.disks["d"].be.num == 1 && !Agrees(r.disks, NODE, r.ctx.pods)
    ensures var s, reqs := Unreserved(), map["d" := DeviceRequest(ASK, 0)];
            && SoundRequests(reqs) && CanAdmit(s.disks, reqs) && Visits(["d"], reqs)
            && Walk(s.disks, [], Unmapped(true), reqs, Listing(reqs, ["d"])).aborted
            && var r := AfterReserve(s, "u", PodRef("p", "ns"), Unmapped(true), reqs, Listing(reqs, ["d"]));
               && r.ctx == s.ctx && r.disks["d"].ga == Pool(70.0, 70.0, 60.0, false, 0)
               && !Agrees(r.disks, NODE, r.ctx.pods)
  {
    UnreservedAgrees();
    UnmappedLeaks(ANY, false);
    UnmappedLeaks(ASK, true);
    assert Unmapped(false)[1..] == [] && Unmapped(true)[1..] == [];
    assert Charge(ASK) == Amount(10.0, 10.0, 0) && Charge(ANY) == Amount(0.0, 0.0, 1);
    AdmitsBoth();
  }

  lemma AdmitsBoth()
    ensures Fits(Unreserved().disks["d"], DeviceRequest(ANY, 0)) && Fits(Unreserved().disks["d"], DeviceRequest(ASK, 0))
  {
  }

  function OneReserved(): Sys {
    var pods := map["u" := PodRequest("p", "ns", [ASK])];
    Sys(ADisk(70.0, 60.0), Context(1, pods, -1, [], [], pods), None)
  }

  lemma AskReserved(d: DevId)
    ensures Reserved(d, [ASK]) == if d == "d" then Amount(10.0, 10.0, 0) else Zero
  {
    assert [ASK][1..] == [];
  }

  lemma OneLoad()
    ensures Load("d", OneReserved().ctx.pods) == Amount(10.0, 10.0, 0)
  {
    var pod := PodRequest("p", "ns", [ASK]);
    AskReserved("d");
    SumInsert(map[], LoadOn("d"), "u", pod);
    assert map[]["u" := pod] == OneReserved().ctx.pods;
    PlusZero(Amount(10.0, 10.0, 0));
  }

  lemma OneReservedAgrees()
    ensures Agrees(OneReserved().disks, NODE, OneReserved().ctx.pods)
  {
    OneLoad();
    var ga := FreshGa(NODE, "d", OneReserved().ctx.pods);
    assert Share(80, 100.0) == 80;
    assert ga == Pool(70.0, 70.0, 60.0, false, 0);
  }

  lemma OneReservedTidy()
    ensures var s := OneReserved();
            Tidy(s.disks, s.ctx.pods) && AllLoads(s.ctx.pods) && Held(s.ctx.pods, "u", "d") != Zero
  {
    forall d
      ensures Reserved(d, [ASK]).NonNegative()
    {
      AskReserved(d);
    }
    AskReserved("d");
  }

  /** A pod is unreserved before it names its node: the cache is credited, the ledger keeps the entry. */
  lemma UnboundReleaseLeaks()
    ensures var s := OneReserved();
            var r := AfterRelease(s, "u", false);
            Agrees(s.disks, NODE, s.ctx.pods) && !Agrees(r.disks, NODE, r.ctx.pods)
  {
    OneReservedAgrees();
    OneReservedTidy();
    ReleaseKeepsAgreementIff(OneReserved(), NODE, "u", false);
  }
}
