/** Accounting of L3 cache and memory bandwidth by class
    (pkg/scheduler/rdt-quantity/resource.go and handle.go).

    Pods of one class share one allocation.  Every class but BE is debited from the BE class when its
    first pod arrives and credited back when its last pod leaves. */
module RdtQuantity {
  import opened IoTypes
  import opened Sorting
  import opened Sums
  import Annotation

  const BestEffort := "BE"

  datatype Rdt = Rdt(l3: real, mb: real) {
    function Plus(o: Rdt): Rdt {
      Rdt(l3 + o.l3, mb + o.mb)
    }

    function Minus(o: Rdt): Rdt {
      Rdt(l3 - o.l3, mb - o.mb)
    }

    predicate AtLeast(o: Rdt) {
      l3 >= o.l3 && mb >= o.mb
    }
  }

  /** What a pod asks for; on the wire the four numbers travel as the Inbps of Request, RawRequest,
      Limit and RawLimit, and the class as the device name. */
  datatype Ask = Ask(name: string, requests: Rdt, limits: Rdt)

  datatype ClassInfo = ClassInfo(requests: Rdt, limits: Rdt, pods: seq<Uid>)

  type Classes = map<string, ClassInfo>

  datatype NodeInfo = NodeInfo(capacity: Rdt, baseline: Rdt, classes: Classes)

  /** AddCacheNodeInfo: everything belongs to BE. */
  function Fresh(capacity: Rdt, baseline: Rdt): NodeInfo {
    NodeInfo(capacity, baseline, map[BestEffort := ClassInfo(capacity, capacity, [])])
  }

  predicate Matches(c: ClassInfo, a: Ask) {
    c.requests == a.requests && c.limits == a.limits
  }

  predicate CanAdmit(n: NodeInfo, a: Ask)
    requires BestEffort in n.classes
  {
    if a.name in n.classes && a.name == BestEffort then true
    else if a.name in n.classes && Matches(n.classes[a.name], a) then true
    else a.name !in n.classes && n.classes[BestEffort].requests.AtLeast(a.requests.Plus(n.baseline))
  }

  /** AddPod, and also one turn of InitNodeStatus's loop. */
  function WithPod(n: NodeInfo, uid: Uid, a: Ask): (r: NodeInfo)
    requires BestEffort in n.classes
    ensures BestEffort in r.classes
  {
    if a.name in n.classes && (a.name == BestEffort || Matches(n.classes[a.name], a)) then
      var c := n.classes[a.name];
      n.(classes := n.classes[a.name := c.(pods := c.pods + [uid])])
    else
      var be := n.classes[BestEffort];
      n.(classes := n.classes[a.name := ClassInfo(a.requests, a.limits, [uid])]
                             [BestEffort := be.(requests := be.requests.Minus(a.requests),
                                                limits := be.limits.Minus(a.requests))])
  }

  function WithoutFirst(pods: seq<Uid>, uid: Uid): seq<Uid> {
    if pods == [] then [] else if pods[0] == uid then pods[1..] else [pods[0]] + WithoutFirst(pods[1..], uid)
  }

  /** RemovePod, having found the pod in class `c`. */
  function WithoutPod(n: NodeInfo, uid: Uid, c: string): (r: NodeInfo)
    requires BestEffort in n.classes && c in n.classes
    ensures BestEffort in r.classes
  {
    var info := n.classes[c];
    var left := WithoutFirst(info.pods, uid);
    if left == [] && c != BestEffort then
      var be := n.classes[BestEffort];
      n.(classes := (n.classes - {c})
                    [BestEffort := be.(requests := be.requests.Plus(info.requests),
                                       limits := be.limits.Plus(info.requests))])
    else n.(classes := n.classes[c := info.(pods := left)])
  }

  /** The request of a pod that InitNodeStatus uses: its last one of this resource. */
  function RdtAsk(rs: seq<IoRequest>): Option<Ask> {
    if rs == [] then None
    else
      var r := rs[|rs| - 1];
      if r.ioType == RDTQuantity && r.dev.Some? then
        var d := r.dev.value;
        Some(Ask(d.devName, Rdt(OrZero(d.request).inbps, OrZero(d.rawRequest).inbps),
                 Rdt(OrZero(d.limit).inbps, OrZero(d.rawLimit).inbps)))
      else RdtAsk(rs[..|rs| - 1])
  }

  /** What a pod asks for, as it travels and is entered in the ledger. */
  function Wire(a: Ask): IoRequest {
    IoRequest(RDTQuantity, GA,
              Some(DevRequirement(a.name, Some(Quantity(a.requests.l3, 0.0, 0.0, 0.0)),
                                  Some(Quantity(a.limits.l3, 0.0, 0.0, 0.0)),
                                  Some(Quantity(a.requests.mb, 0.0, 0.0, 0.0)),
                                  Some(Quantity(a.limits.mb, 0.0, 0.0, 0.0)))))
  }

  function Asks(pods: Pods): map<Uid, Ask> {
    map u | u in pods && RdtAsk(pods[u].requests).Some? :: RdtAsk(pods[u].requests).value
  }

  /** The pods of a map, added one by one in the order of `order`. */
  function Filled(n: NodeInfo, asks: map<Uid, Ask>, order: seq<Uid>): (r: NodeInfo)
    requires BestEffort in n.classes && forall u <- order :: u in asks
    ensures BestEffort in r.classes
  {
    if order == [] then n
    else
      var last := |order| - 1;
      WithPod(Filled(n, asks, order[..last]), order[last], asks[order[last]])
  }

  ghost predicate Visits(order: seq<Uid>, asks: map<Uid, Ask>) {
    && (forall u :: u in order <==> u in asks)
    && (forall i, j | 0 <= i < j < |order| :: order[i] != order[j])
  }

  // ---------------------------------------------------------------- the cache object

  class Resource {
    var info: NodeInfo

    ghost predicate Valid()
      reads this
    {
      BestEffort in info.classes
    }

    constructor (capacity: Rdt, baseline: Rdt)
      ensures Valid() && info == Fresh(capacity, baseline)
    {
      info := Fresh(capacity, baseline);
    }

    /** Admits a pod that joins its class, or whose new class leaves BE its baseline; and then, if BE
        has its baseline now, it has it with the pod added. */
    method CanAdmitPod(a: Ask) returns (ok: bool)
      requires Valid()
      ensures ok <==> Joins(info, a) && (a.name !in info.classes ==> forall uid :: AboveBaseline(WithPod(info, uid, a)))
      ensures ok && AboveBaseline(info) ==> forall uid :: AboveBaseline(WithPod(info, uid, a))
      ensures ok == CanAdmit(info, a)
    {
      var exist := a.name in info.classes;
      if exist && a.name == BestEffort {
        return true;
      } else if exist && info.classes[a.name].limits.l3 == a.limits.l3
                && info.classes[a.name].requests.l3 == a.requests.l3
                && info.classes[a.name].limits.mb == a.limits.mb && info.classes[a.name].requests.mb == a.requests.mb {
        return true;
      } else if !exist && info.classes[BestEffort].requests.l3 >= a.requests.l3 + info.baseline.l3
                && info.classes[BestEffort].requests.mb >= a.requests.mb + info.baseline.mb {
        return true;
      } else {
        if !exist {
          NewClassBaseline(info, "", a);
        }
        return false;
      }
    }

    /** The request is returned as it came, to be entered in the ledger. */
    method AddPod(uid: Uid, a: Ask) returns (entered: seq<IoRequest>)
      requires Valid()
      modifies this
      ensures Valid() && info == WithPod(old(info), uid, a)
      ensures entered == [Wire(a)]
    {
      entered := [Wire(a)];
      var exist := a.name in info.classes;
      if exist && (a.name == BestEffort || Matches(info.classes[a.name], a)) {
        var c := info.classes[a.name];
        info := info.(classes := info.classes[a.name := c.(pods := c.pods + [uid])]);
      } else {
        var be := info.classes[BestEffort];
        info := info.(classes := info.classes[a.name := ClassInfo(a.requests, a.limits, [uid])]);
        var debited := be.(requests := be.requests.Minus(a.requests), limits := be.limits.Minus(a.requests));
        info := info.(classes := info.classes[BestEffort := debited]);
      }
    }

    /** Searches the classes in any order and takes the pod out of the first list that has it. */
    method RemovePod(uid: Uid) returns (r: Result<()>)
      requires Valid()
      modifies this
      ensures Valid()
      ensures r.Ok? <==> exists c <- old(info.classes) :: uid in old(info.classes)[c].pods
      ensures r.Err? ==> info == old(info)
      ensures r.Ok? ==> exists c <- old(info.classes) ::
                uid in old(info.classes)[c].pods && info == WithoutPod(old(info), uid, c)
    {
      var todo := info.classes.Keys;
      while todo != {}
        invariant todo <= info.classes.Keys && info == old(info)
        invariant forall c <- info.classes.Keys - todo :: uid !in info.classes[c].pods
      {
        var c :| c in todo;
        var found := info.classes[c];
        for i := 0 to |found.pods|
          invariant uid !in found.pods[..i] && info == old(info)
        {
          if found.pods[i] == uid {
            FirstIndex(found.pods, uid, i);
            found := found.(pods := found.pods[..i] + found.pods[i + 1..]);
            if found.pods == [] && c != BestEffort {
              var be := info.classes[BestEffort];
              info := info.(classes := (info.classes - {c})
                                       [BestEffort := be.(requests := be.requests.Plus(found.requests),
                                                  limits := be.limits.Plus(found.requests))]);
            } else {
              info := info.(classes := info.classes[c := found]);
            }
            return Ok(());
          }
        }
        todo := todo - {c};
      }
      r := Err("pod not found in cache");
    }

    /** Adds every pod of the ledger that holds this resource, in some order. */
    method InitNodeStatus(pods: Pods) returns (ghost order: seq<Uid>)
      requires Valid()
      modifies this
      ensures Valid() && Visits(order, Asks(pods)) && info == Filled(old(info), Asks(pods), order)
    {
      var asks := Asks(pods);
      var todo := asks.Keys;
      order := [];
      while todo != {}
        invariant Valid() && todo <= asks.Keys
        invariant forall u :: u in order <==> u in asks.Keys - todo
        invariant forall i, j | 0 <= i < j < |order| :: order[i] != order[j]
        invariant info == Filled(old(info), asks, order)
      {
        var uid :| uid in todo;
        assert uid !in order;
        var entered := AddPod(uid, asks[uid]);
        assert (order + [uid])[..|order|] == order;
        order := order + [uid];
        todo := todo - {uid};
      }
    }
  }

  lemma {:induction false} FirstIndex(pods: seq<Uid>, uid: Uid, i: nat)
    requires i < |pods| && pods[i] == uid && uid !in pods[..i]
    ensures WithoutFirst(pods, uid) == pods[..i] + pods[i + 1..]
  {
    if i > 0 {
      assert pods[0] in pods[..i];
      assert pods[1..][..i - 1] == pods[..i][1..];
      FirstIndex(pods[1..], uid, i - 1);
    }
  }

  // ---------------------------------------------------------------- the cache follows the ledger

  /** What a class holds, as a two-dimensional amount. */
  function ShareOf(): ClassInfo -> Amount {
    (c: ClassInfo) => Amount(c.requests.l3, c.requests.mb, 0)
  }

  /** The amounts held by the classes other than BE. */
  ghost function Allotted(classes: Classes): Rdt {
    var s := Sum(classes - {BestEffort}, ShareOf());
    Rdt(s.rd, s.wr)
  }

  /** Conservation: BE owns what is not allotted, as request and as limit. */
  ghost predicate Balanced(n: NodeInfo) {
    && BestEffort in n.classes
    && n.classes[BestEffort].requests.Plus(Allotted(n.classes)) == n.capacity
    && n.classes[BestEffort].limits == n.classes[BestEffort].requests
  }

  /** The class table lists exactly the pods of the ledger, each once and in its own class; a class
      other than BE exists only while it has pods, and it has the amounts they all asked for. */
  ghost predicate Tracks(n: NodeInfo, asks: map<Uid, Ask>) {
    && Balanced(n)
    && (forall c <- n.classes :: Staffed(c, n.classes[c], asks))
    && (forall u <- asks :: Placed(n, u, asks[u]))
  }

  ghost predicate Staffed(c: string, info: ClassInfo, asks: map<Uid, Ask>) {
    && NoRepeats(info.pods)
    && (c != BestEffort ==> info.pods != [])
    && (forall u <- info.pods :: u in asks && asks[u].name == c)
  }

  ghost predicate Placed(n: NodeInfo, u: Uid, a: Ask) {
    && a.name in n.classes
    && u in n.classes[a.name].pods
    && (a.name != BestEffort ==> Matches(n.classes[a.name], a))
  }

  /** A pod that fits the class it names, or names a class that does not exist. */
  predicate Joins(n: NodeInfo, a: Ask) {
    a.name !in n.classes || a.name == BestEffort || Matches(n.classes[a.name], a)
  }

  /** A new class leaves BE its baseline exactly if BE had that much more. */
  lemma NewClassBaseline(n: NodeInfo, uid: Uid, a: Ask)
    requires BestEffort in n.classes && a.name !in n.classes
    ensures AboveBaseline(WithPod(n, uid, a)) <==> n.classes[BestEffort].requests.AtLeast(a.requests.Plus(n.baseline))
  {
  }

  lemma JoinBalanced(n: NodeInfo, uid: Uid, a: Ask)
    requires Balanced(n) && Joins(n, a)
    ensures Balanced(WithPod(n, uid, a))
  {
    var r := WithPod(n, uid, a);
    var old', new' := n.classes - {BestEffort}, r.classes - {BestEffort};
    if a.name == BestEffort {
      assert old' == new';
    } else if a.name in n.classes {
      assert new' == old'[a.name := r.classes[a.name]];
      SumReplace(old', ShareOf(), a.name, r.classes[a.name]);
    } else {
      assert new' == old'[a.name := r.classes[a.name]];
      SumInsert(old', ShareOf(), a.name, r.classes[a.name]);
    }
  }

  lemma JoinTracks(n: NodeInfo, asks: map<Uid, Ask>, uid: Uid, a: Ask)
    requires Tracks(n, asks) && uid !in asks && Joins(n, a)
    ensures Tracks(WithPod(n, uid, a), asks[uid := a])
  {
    JoinBalanced(n, uid, a);
    var r, more := WithPod(n, uid, a), asks[uid := a];
    forall c | c in r.classes
      ensures Staffed(c, r.classes[c], more)
    {
      if c in n.classes {
        assert Staffed(c, n.classes[c], asks);
        assert uid !in n.classes[c].pods;
      }
    }
    forall u | u in more
      ensures Placed(r, u, more[u])
    {
      if u != uid {
        assert Placed(n, u, asks[u]);
      }
    }
  }

  lemma {:induction false} WithoutFirstSpec(pods: seq<Uid>, uid: Uid)
    requires NoRepeats(pods) && uid in pods
    ensures var left := WithoutFirst(pods, uid);
            NoRepeats(left) && (forall u :: u in left <==> u in pods && u != uid)
  {
    if pods[0] == uid {
      assert forall u <- pods[1..] :: u != uid;
      assert pods == [uid] + pods[1..];
    } else {
      WithoutFirstSpec(pods[1..], uid);
      assert pods == [pods[0]] + pods[1..];
      assert pods[0] !in pods[1..];
    }
  }

  lemma LeaveBalanced(n: NodeInfo, uid: Uid, c: string)
    requires Balanced(n) && c in n.classes
    ensures Balanced(WithoutPod(n, uid, c))
  {
    var r := WithoutPod(n, uid, c);
    var old', new' := n.classes - {BestEffort}, r.classes - {BestEffort};
    if c == BestEffort {
      assert old' == new';
    } else if c in r.classes {
      assert new' == old'[c := r.classes[c]];
      SumReplace(old', ShareOf(), c, r.classes[c]);
    } else {
      assert new' == old' - {c};
      SumWithout(old', ShareOf(), c);
    }
  }

  lemma LeaveTracks(n: NodeInfo, asks: map<Uid, Ask>, uid: Uid)
    requires Tracks(n, asks) && uid in asks
    ensures asks[uid].name in n.classes && Tracks(WithoutPod(n, uid, asks[uid].name), asks - {uid})
  {
    assert Placed(n, uid, asks[uid]);
    var c := asks[uid].name;
    var r := WithoutPod(n, uid, c);
    LeaveBalanced(n, uid, c);
    assert Staffed(c, n.classes[c], asks);
    WithoutFirstSpec(n.classes[c].pods, uid);
    var fewer := asks - {uid};
    forall b | b in r.classes
      ensures Staffed(b, r.classes[b], fewer)
    {
      assert Staffed(b, n.classes[b], asks);
    }
    forall u | u in fewer
      ensures Placed(r, u, fewer[u])
    {
      StaysPlaced(n, asks, uid, u);
    }
  }

  lemma StaysPlaced(n: NodeInfo, asks: map<Uid, Ask>, uid: Uid, u: Uid)
    requires Tracks(n, asks) && uid in asks && u in asks && u != uid
    ensures asks[uid].name in n.classes && Placed(WithoutPod(n, uid, asks[uid].name), u, asks[u])
  {
    assert Placed(n, u, asks[u]) && Placed(n, uid, asks[uid]);
    var c := asks[uid].name;
    assert Staffed(c, n.classes[c], asks);
    WithoutFirstSpec(n.classes[c].pods, uid);
  }

  // ---------------------------------------------------------------- runs

  datatype Sched = Sched(info: NodeInfo, asks: map<Uid, Ask>, pending: Option<(Uid, Ask)>)

  datatype Op = Filter(uid: Uid, ask: Ask) | Reserve | Release(uid: Uid)

  /** Filter sees a pod that is not reserved; Reserve uses up the pod that passed Filter last. */
  predicate Enabled(s: Sched, op: Op) {
    match op
    case Filter(uid, _) => uid !in s.asks && BestEffort in s.info.classes
    case Reserve => s.pending.Some? && BestEffort in s.info.classes
    case Release(uid) => uid in s.asks ==> BestEffort in s.info.classes && s.asks[uid].name in s.info.classes
  }

  function Next(s: Sched, op: Op): Sched
    requires Enabled(s, op)
  {
    match op
    case Filter(uid, a) => s.(pending := if CanAdmit(s.info, a) then Some((uid, a)) else None)
    case Reserve =>
      var (uid, a) := s.pending.value;
      Sched(WithPod(s.info, uid, a), s.asks[uid := a], None)
    case Release(uid) =>
      if uid in s.asks then s.(info := WithoutPod(s.info, uid, s.asks[uid].name), asks := s.asks - {uid}) else s
  }

  predicate Reaches(s: Sched, ops: seq<Op>, r: Sched)
    decreases |ops|
  {
    if ops == [] then r == s else Enabled(s, ops[0]) && Reaches(Next(s, ops[0]), ops[1..], r)
  }

  /** RemovePod cannot take the pod out of the wrong class: only one class lists it. */
  lemma OnlyOneClass(n: NodeInfo, asks: map<Uid, Ask>, uid: Uid, c: string)
    requires Tracks(n, asks) && c in n.classes && uid in n.classes[c].pods
    ensures uid in asks && asks[uid].name == c
  {
    assert Staffed(c, n.classes[c], asks);
  }

  ghost predicate Invariant(s: Sched) {
    && Tracks(s.info, s.asks)
    && (s.pending.Some? ==> s.pending.value.0 !in s.asks && Joins(s.info, s.pending.value.1))
  }

  lemma StepInvariant(s: Sched, op: Op)
    requires Invariant(s) && Enabled(s, op)
    ensures Invariant(Next(s, op))
  {
    match op
    case Filter(_, _) =>
    case Reserve => JoinTracks(s.info, s.asks, s.pending.value.0, s.pending.value.1);
    case Release(uid) =>
      if uid in s.asks {
        LeaveTracks(s.info, s.asks, uid);
      }
  }

  /** In every run of admit-then-add with deletions in between, capacity is conserved, BE's limits
      equal its requests, a class other than BE exists exactly while it has pods, and no pod is in
      two classes. */
  lemma {:induction false} RunsTrack(s: Sched, ops: seq<Op>, r: Sched)
    requires Invariant(s) && Reaches(s, ops, r)
    ensures Invariant(r)
    decreases |ops|
  {
    if ops != [] {
      StepInvariant(s, ops[0]);
      RunsTrack(Next(s, ops[0]), ops[1..], r);
    }
  }

  lemma FreshTracks(capacity: Rdt, baseline: Rdt)
    ensures Tracks(Fresh(capacity, baseline), map[])
  {
    var n := Fresh(capacity, baseline);
    assert n.classes - {BestEffort} == map[];
  }

  // ---------------------------------------------------------------- rebuilding from the ledger

  /** The two class tables agree up to the order in which a class lists its pods. */
  ghost predicate SameTable(m: NodeInfo, n: NodeInfo) {
    && m.capacity == n.capacity
    && m.baseline == n.baseline
    && m.classes.Keys == n.classes.Keys
    && forall c <- m.classes ::
         && m.classes[c].requests == n.classes[c].requests
         && m.classes[c].limits == n.classes[c].limits
         && multiset(m.classes[c].pods) == multiset(n.classes[c].pods)
  }

  lemma {:induction false} TracksKeys(m: NodeInfo, n: NodeInfo, asks: map<Uid, Ask>, c: string)
    requires Tracks(m, asks) && Tracks(n, asks) && c in m.classes
    ensures c in n.classes
    ensures forall u :: u in m.classes[c].pods <==> u in n.classes[c].pods
    ensures multiset(m.classes[c].pods) == multiset(n.classes[c].pods)
    ensures c != BestEffort ==> m.classes[c].requests == n.classes[c].requests
    ensures c != BestEffort ==> m.classes[c].limits == n.classes[c].limits
  {
    assert Staffed(c, m.classes[c], asks);
    if c != BestEffort {
      var u := m.classes[c].pods[0];
      assert u in m.classes[c].pods;
      assert Placed(n, u, asks[u]) && Placed(m, u, asks[u]);
    }
    assert Staffed(c, n.classes[c], asks);
    forall u
      ensures u in m.classes[c].pods <==> u in n.classes[c].pods
    {
      if u in m.classes[c].pods {
        assert Placed(n, u, asks[u]);
      }
      if u in n.classes[c].pods {
        assert Placed(m, u, asks[u]);
      }
    }
    SameMembers(m.classes[c].pods, n.classes[c].pods);
  }

  /** The ledger determines the class table. */
  lemma TableDetermined(m: NodeInfo, n: NodeInfo, asks: map<Uid, Ask>)
    requires Tracks(m, asks) && Tracks(n, asks) && m.capacity == n.capacity && m.baseline == n.baseline
    ensures SameTable(m, n)
  {
    forall c | c in m.classes
      ensures c in n.classes
    {
      TracksKeys(m, n, asks, c);
    }
    forall c | c in n.classes
      ensures c in m.classes
    {
      TracksKeys(n, m, asks, c);
    }
    assert m.classes.Keys == n.classes.Keys;
    var x, y := m.classes - {BestEffort}, n.classes - {BestEffort};
    forall c | c in x
      ensures ShareOf()(x[c]) == ShareOf()(y[c])
    {
      TracksKeys(m, n, asks, c);
    }
    SumSame(x, ShareOf(), y, ShareOf());
    RestIsBe(m.classes[BestEffort].requests, n.classes[BestEffort].requests, Allotted(m.classes), m.capacity);
    forall c | c in m.classes
      ensures multiset(m.classes[c].pods) == multiset(n.classes[c].pods)
      ensures c != BestEffort ==> m.classes[c].requests == n.classes[c].requests
      ensures c != BestEffort ==> m.classes[c].limits == n.classes[c].limits
    {
      TracksKeys(m, n, asks, c);
    }
  }

  lemma RestIsBe(x: Rdt, y: Rdt, allotted: Rdt, capacity: Rdt)
    requires x.Plus(allotted) == capacity && y.Plus(allotted) == capacity
    ensures x == y
  {
    assert x.l3 + allotted.l3 == y.l3 + allotted.l3;
    assert x.mb + allotted.mb == y.mb + allotted.mb;
  }

  function Restrict(asks: map<Uid, Ask>, order: seq<Uid>): map<Uid, Ask> {
    map u | u in order && u in asks :: asks[u]
  }

  /** In a ledger that some table tracks, all pods of a class other than BE ask for the same. */
  lemma LaterJoins(n: NodeInfo, asks: map<Uid, Ask>, m: NodeInfo, seen: map<Uid, Ask>, uid: Uid)
    requires Tracks(n, asks) && Tracks(m, seen) && seen.Keys <= asks.Keys && uid in asks
    requires forall u <- seen :: seen[u] == asks[u]
    ensures Joins(m, asks[uid])
  {
    var c := asks[uid].name;
    if c in m.classes && c != BestEffort {
      assert Staffed(c, m.classes[c], seen);
      var u := m.classes[c].pods[0];
      assert u in m.classes[c].pods;
      assert Placed(m, u, seen[u]) && Placed(n, u, asks[u]) && Placed(n, uid, asks[uid]);
    }
  }

  lemma RestrictMore(asks: map<Uid, Ask>, before: seq<Uid>, uid: Uid)
    requires uid in asks
    ensures Restrict(asks, before + [uid]) == Restrict(asks, before)[uid := asks[uid]]
  {
    assert forall u :: u in before + [uid] <==> u in before || u == uid;
  }

  lemma FillOne(n: NodeInfo, asks: map<Uid, Ask>, m: NodeInfo, before: seq<Uid>, uid: Uid)
    requires Tracks(n, asks) && Tracks(m, Restrict(asks, before)) && uid in asks && uid !in before
    ensures Tracks(WithPod(m, uid, asks[uid]), Restrict(asks, before + [uid]))
  {
    var seen := Restrict(asks, before);
    RestrictMore(asks, before, uid);
    assert Joins(m, asks[uid]) by {
      LaterJoins(n, asks, m, seen, uid);
    }
    JoinTracks(m, seen, uid, asks[uid]);
  }

  /** Filling a fresh table from a ledger that some table tracks never meets a class with other
      amounts, whatever the order. */
  lemma {:induction false} FilledTracks(n: NodeInfo, asks: map<Uid, Ask>, order: seq<Uid>)
    requires Tracks(n, asks) && (forall u <- order :: u in asks) && NoRepeats(order)
    ensures Tracks(Filled(Fresh(n.capacity, n.baseline), asks, order), Restrict(asks, order))
    decreases |order|
  {
    var empty := Fresh(n.capacity, n.baseline);
    if order == [] {
      FreshTracks(n.capacity, n.baseline);
      assert Restrict(asks, order) == map[];
    } else {
      var last := |order| - 1;
      var before, uid := order[..last], order[last];
      FilledTracks(n, asks, before);
      assert order == before + [uid];
      FillOne(n, asks, Filled(empty, asks, before), before, uid);
    }
  }

  lemma FilledKeepsLimits(n: NodeInfo, asks: map<Uid, Ask>, order: seq<Uid>)
    requires BestEffort in n.classes && forall u <- order :: u in asks
    ensures Filled(n, asks, order).capacity == n.capacity && Filled(n, asks, order).baseline == n.baseline
    decreases |order|
  {
    if order != [] {
      FilledKeepsLimits(n, asks, order[..|order| - 1]);
    }
  }

  /** After every admitted run, rebuilding a fresh table from the ledger, in whatever order the
      ledger is walked, gives the class amounts, the BE remainder and the pods per class of the
      table that was kept up step by step. */
  lemma RebuildGivesSameTable(capacity: Rdt, baseline: Rdt, ops: seq<Op>, r: Sched, order: seq<Uid>)
    requires Reaches(Sched(Fresh(capacity, baseline), map[], None), ops, r)
    requires Visits(order, r.asks)
    ensures SameTable(Filled(Fresh(capacity, baseline), r.asks, order), r.info)
  {
    FreshTracks(capacity, baseline);
    var s := Sched(Fresh(capacity, baseline), map[], None);
    RunsTrack(s, ops, r);
    RunsKeepLimits(s, ops, r);
    FilledTracks(r.info, r.asks, order);
    assert Restrict(r.asks, order) == r.asks;
    FilledKeepsLimits(Fresh(capacity, baseline), r.asks, order);
    TableDetermined(Filled(Fresh(capacity, baseline), r.asks, order), r.info, r.asks);
  }

  /** Requests of other resources. */
  predicate Foreign(rs: seq<IoRequest>) {
    forall i | 0 <= i < |rs| :: rs[i].ioType != RDTQuantity
  }

  /** What AddPod has entered in the ledger, among requests of other resources, reads back as what was
      asked for. */
  lemma {:induction false} EntryReadsBack(before: seq<IoRequest>, a: Ask, after: seq<IoRequest>)
    requires Foreign(after)
    ensures RdtAsk(before + [Wire(a)] + after) == Some(a)
    decreases |after|
  {
    var rs := before + [Wire(a)] + after;
    if after == [] {
      assert rs[|rs| - 1] == Wire(a);
    } else {
      var last := |after| - 1;
      assert rs[..|rs| - 1] == before + [Wire(a)] + after[..last];
      EntryReadsBack(before, a, after[..last]);
    }
  }

  lemma {:induction false} ForeignReadsNothing(rs: seq<IoRequest>)
    requires Foreign(rs)
    ensures RdtAsk(rs) == None
  {
    if rs != [] {
      ForeignReadsNothing(rs[..|rs| - 1]);
    }
  }

  /** So it does from the pod's annotation, after a restart. */
  lemma AnnotationReadsBack(a: Ask)
    ensures RdtAsk([Annotation.Normal(Wire(a))]) == Some(a)
  {
    var rs := [Annotation.Normal(Wire(a))];
    assert rs[|rs| - 1] == Annotation.Normal(Wire(a));
  }

  /** The ledger has the request of each of these pods, and no other of this resource. */
  ghost predicate LedgerHas(pods: Pods, asks: map<Uid, Ask>) {
    && asks.Keys <= pods.Keys
    && (forall u <- pods | u !in asks :: Foreign(pods[u].requests))
    && (forall u <- asks :: EnteredIn(pods[u].requests, asks[u]))
  }

  ghost predicate EnteredIn(rs: seq<IoRequest>, a: Ask) {
    exists before, after :: Foreign(after) && rs == before + [Wire(a)] + after
  }

  lemma LedgerReadsBack(pods: Pods, asks: map<Uid, Ask>)
    requires LedgerHas(pods, asks)
    ensures Asks(pods) == asks
  {
    forall u | u in pods
      ensures RdtAsk(pods[u].requests) == if u in asks then Some(asks[u]) else None
    {
      if u in asks {
        assert EnteredIn(pods[u].requests, asks[u]);
        var before, after :| Foreign(after) && pods[u].requests == before + [Wire(asks[u])] + after;
        EntryReadsBack(before, asks[u], after);
      } else {
        ForeignReadsNothing(pods[u].requests);
      }
    }
  }

  /** Entering what AddPod returns, among what other resources grant, and taking a pod out, keep the
      ledger in step. */
  lemma LedgerStays(pods: Pods, asks: map<Uid, Ask>, uid: Uid, pod: PodRequest, a: Ask, before: seq<IoRequest>,
                    after: seq<IoRequest>)
    requires LedgerHas(pods, asks) && Foreign(after) && pod.requests == before + [Wire(a)] + after
    ensures LedgerHas(pods[uid := pod], asks[uid := a]) && LedgerHas(pods - {uid}, asks - {uid})
  {
    assert EnteredIn(pod.requests, a);
  }

  /** After every admitted run, InitNodeStatus gives from the ledger's pods, in whatever order it walks
      them, the table that was kept up step by step. */
  lemma RebuildFromLedger(capacity: Rdt, baseline: Rdt, ops: seq<Op>, r: Sched, pods: Pods, order: seq<Uid>)
    requires Reaches(Sched(Fresh(capacity, baseline), map[], None), ops, r)
    requires LedgerHas(pods, r.asks) && Visits(order, Asks(pods))
    ensures SameTable(Filled(Fresh(capacity, baseline), Asks(pods), order), r.info)
  {
    LedgerReadsBack(pods, r.asks);
    RebuildGivesSameTable(capacity, baseline, ops, r, order);
  }

  lemma {:induction false} RunsKeepLimits(s: Sched, ops: seq<Op>, r: Sched)
    requires Reaches(s, ops, r)
    ensures r.info.capacity == s.info.capacity && r.info.baseline == s.info.baseline
    decreases |ops|
  {
    if ops != [] {
      RunsKeepLimits(Next(s, ops[0]), ops[1..], r);
    }
  }

  // ---------------------------------------------------------------- the baseline of BE

  /** Every amount asked for is at least `low`. */
  predicate AsksFrom(op: Op, low: real) {
    op.Filter? ==> op.ask.requests.AtLeast(Rdt(low, low))
  }

  predicate AllAskFrom(ops: seq<Op>, low: real) {
    forall i | 0 <= i < |ops| :: AsksFrom(ops[i], low)
  }

  predicate AboveBaseline(n: NodeInfo) {
    BestEffort in n.classes && n.classes[BestEffort].requests.AtLeast(n.baseline)
  }

  const NONE := Rdt(0.0, 0.0)

  /** What carries the baseline along a run: a pod waiting for its Reserve would still be admitted. */
  ghost predicate Floor(s: Sched) {
    && Invariant(s)
    && AboveBaseline(s.info)
    && (forall u <- s.asks :: s.asks[u].requests.AtLeast(NONE))
    && (s.pending.Some? ==> CanAdmit(s.info, s.pending.value.1) && s.pending.value.1.requests.AtLeast(NONE))
  }

  lemma ReleaseKeepsFloor(s: Sched, uid: Uid)
    requires Floor(s) && uid in s.asks
    ensures Enabled(s, Release(uid)) && Floor(Next(s, Release(uid)))
  {
    assert Placed(s.info, uid, s.asks[uid]);
    var r := Next(s, Release(uid));
    StepInvariant(s, Release(uid));
    assert r.info.classes[BestEffort].requests.AtLeast(s.info.classes[BestEffort].requests);
    assert r.info.baseline == s.info.baseline;
  }

  lemma StepKeepsFloor(s: Sched, op: Op)
    requires Floor(s) && Enabled(s, op) && AsksFrom(op, 0.0)
    ensures Floor(Next(s, op))
  {
    StepInvariant(s, op);
    match op
    case Filter(_, _) =>
    case Reserve =>
    case Release(uid) =>
      if uid in s.asks {
        ReleaseKeepsFloor(s, uid);
      }
  }

  lemma {:induction false} RunKeepsFloor(s: Sched, ops: seq<Op>, r: Sched)
    requires Floor(s) && Reaches(s, ops, r) && AllAskFrom(ops, 0.0)
    ensures Floor(r)
    decreases |ops|
  {
    if ops != [] {
      StepKeepsFloor(s, ops[0]);
      assert AllAskFrom(ops[1..], 0.0) by {
        assert forall i | 0 <= i < |ops[1..]| :: ops[1..][i] == ops[i + 1];
      }
      RunKeepsFloor(Next(s, ops[0]), ops[1..], r);
    }
  }

  /** Every run from a fresh table whose asks are all at least `low` leaves BE its baseline. */
  ghost predicate BaselineKept(capacity: Rdt, baseline: Rdt, low: real) {
    forall ops, r | Reaches(Sched(Fresh(capacity, baseline), map[], None), ops, r) && AllAskFrom(ops, low) ::
      AboveBaseline(r.info)
  }

  /** A pod of class "a" with a negative amount lends BE what it does not have; class "b" takes it,
      and when "a" leaves BE is short by that amount. */
  function Shortfall(capacity: Rdt, baseline: Rdt, low: real): seq<Op> {
    [Filter("1", Ask("a", Rdt(low, 0.0), NONE)), Reserve,
     Filter("2", Ask("b", Rdt(capacity.l3 - low - baseline.l3, 0.0), NONE)), Reserve,
     Release("1")]
  }

  lemma NegativeAskBreaksBaseline(capacity: Rdt, baseline: Rdt, low: real) returns (r: Sched)
    requires capacity.AtLeast(baseline) && low < 0.0
    ensures Reaches(Sched(Fresh(capacity, baseline), map[], None), Shortfall(capacity, baseline, low), r)
    ensures AllAskFrom(Shortfall(capacity, baseline, low), low)
    ensures BestEffort in r.info.classes && r.info.classes[BestEffort].requests.l3 == baseline.l3 + low
  {
    var ops := Shortfall(capacity, baseline, low);
    var s := Sched(Fresh(capacity, baseline), map[], None);
    var s1 := Next(s, ops[0]);
    assert s1.pending == Some(("1", ops[0].ask));
    var s2 := Next(s1, ops[1]);
    assert s2.info.classes[BestEffort].requests == Rdt(capacity.l3 - low, capacity.mb);
    var s3 := Next(s2, ops[2]);
    assert s3.pending == Some(("2", ops[2].ask));
    var s4 := Next(s3, ops[3]);
    assert s4.info.classes[BestEffort].requests == Rdt(baseline.l3, capacity.mb);
    assert s4.info.classes["a"].pods == ["1"];
    r := Next(s4, ops[4]);
    assert Reaches(s4, ops[4..], r) by {
      assert Reaches(r, ops[4..][1..], r);
    }
    assert ops[3..][1..] == ops[4..] && ops[2..][1..] == ops[3..] && ops[1..][1..] == ops[2..];
    assert Reaches(s3, ops[3..], r);
    assert Reaches(s2, ops[2..], r);
    assert Reaches(s1, ops[1..], r);
  }

  /** BE keeps its baseline in every run exactly if nothing may ask for a negative amount; the code
      does not check that, so it is up to the parser of the requests. */
  lemma BaselineKeptIff(capacity: Rdt, baseline: Rdt, low: real)
    requires capacity.AtLeast(baseline)
    ensures BaselineKept(capacity, baseline, low) <==> low >= 0.0
  {
    var s := Sched(Fresh(capacity, baseline), map[], None);
    if low >= 0.0 {
      FreshTracks(capacity, baseline);
      forall ops, r | Reaches(s, ops, r) && AllAskFrom(ops, low)
        ensures AboveBaseline(r.info)
      {
        assert AllAskFrom(ops, 0.0) by {
          assert forall i | 0 <= i < |ops| :: AsksFrom(ops[i], low);
        }
        RunKeepsFloor(s, ops, r);
      }
    } else {
      var r := NegativeAskBreaksBaseline(capacity, baseline, low);
      RunsKeepLimits(s, Shortfall(capacity, baseline, low), r);
    }
  }
}
