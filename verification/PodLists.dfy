/** Pod lists from the aggregator to the node agent, and the request tables the agent keeps from them
    (pkg/aggregator/server.go, pkg/agent/aggregator.go, pkg/agent/disk/engine.go,
    pkg/agent/common/workload.go).

    A list names every reserved pod but carries details only of the pods that are new to the
    aggregator; the agent fills in the others from what it was given before. */
module PodLists {
  import opened IoTypes
  import DiskCache
  import Ledger

  /** What a published spec says about the reserved pods, as far as lists are concerned. */
  datatype Roster = Roster(generation: int, pods: set<Uid>)

  function RosterOf(spec: Ledger.Spec): Roster {
    Roster(spec.generation, spec.reservedPods.Keys)
  }

  /** A pod listed without details is to be looked up in the agent's own store. */
  datatype PodList = PodList(generation: int, pods: map<Uid, Option<PodRequest>>)

  /** A pod list whose details the agent has filled in. */
  datatype PodData = PodData(generation: int, pods: Pods)

  /** What the API server has for a pod: no pod, no annotation, or the annotated details. */
  type Answers = map<Uid, Option<PodRequest>>

  /** GetPodList: pods in `added` come with what the API server answers, the others without. */
  function ListOf(roster: Roster, added: set<Uid>, answers: Answers): PodList {
    PodList(roster.generation, map u | u in roster.pods && (u in added ==> u in answers) ::
                               if u in added then answers[u] else None)
  }

  predicate Detailed(o: Option<PodRequest>) {
    o.Some? && o.value.requests != []
  }

  /** ProcessPodsFromAggregator: remember the details that came along, look up the others. */
  function Remembered(store: Pods, list: PodList): Pods {
    store + Details(list)
  }

  function Details(list: PodList): Pods {
    map u | u in list.pods && Detailed(list.pods[u]) :: list.pods[u].value
  }

  function Expanded(store: Pods, list: PodList): PodData {
    var known := Remembered(store, list);
    PodData(list.generation, map u | u in list.pods && u in known :: known[u])
  }

  /** What the agent makes of a listed pod: details that name at least one request are taken, also over
      what it was told before; without such details it uses what it was told before, or skips the pod. */
  lemma ExpandedAt(store: Pods, list: PodList, u: Uid)
    ensures var told := u in list.pods && list.pods[u].Some? && list.pods[u].value.requests != [];
            var pods := Expanded(store, list).pods;
            && (u in pods <==> u in list.pods && (told || u in store))
            && (u in pods ==> pods[u] == if told then list.pods[u].value else store[u])
            && (u in Remembered(store, list) <==> told || u in store)
            && (u in Remembered(store, list) ==>
                  Remembered(store, list)[u] == if told then list.pods[u].value else store[u])
  {
  }

  // ---------------------------------------------------------------- request tables of the agent

  /** One pod on one device, as the agent sees it. */
  datatype RunInfo = RunInfo(request: Quantity, limit: Quantity, rawRequest: Quantity, rawLimit: Quantity,
                             group: QoS, name: string)

  /** A request that is not best effort is guaranteed if its limit is its request. */
  function Classified(r: IoRequest, d: DevRequirement, name: string): RunInfo {
    var request, limit := OrZero(d.request), OrZero(d.limit);
    RunInfo(request, limit, OrZero(d.rawRequest), OrZero(d.rawLimit),
            if r.qos == BE then BE else if request == limit then GA else BT, name)
  }

  function DiskDevs(rs: seq<IoRequest>): set<DevId> {
    set i | 0 <= i < |rs| && rs[i].ioType == DiskIO && rs[i].dev.Some? :: rs[i].dev.value.devName
  }

  /** The last request for a device is the one that counts. */
  function InfoOn(rs: seq<IoRequest>, name: string, dev: DevId): RunInfo
    requires dev in DiskDevs(rs)
    decreases |rs|
  {
    var last := |rs| - 1;
    if DiskCache.Asks(rs[last], dev) then Classified(rs[last], rs[last].dev.value, name)
    else InfoOn(rs[..last], name, dev)
  }

  /** PodEvents, keyed by device and pod. */
  type Events = map<(DevId, Uid), RunInfo>

  predicate HasEvent(pods: Pods, k: (DevId, Uid)) {
    k.1 in pods && k.0 in DiskDevs(pods[k.1].requests)
  }

  function EventsOf(pods: Pods): Events {
    var keys := set u, d | u in pods && d in DiskDevs(pods[u].requests) :: (d, u);
    map k | k in keys && HasEvent(pods, k) :: InfoOn(pods[k.1].requests, pods[k.1].name, k.0)
  }

  ghost predicate AreEvents(events: Events, pods: Pods) {
    forall k: (DevId, Uid) ::
      && (k in events <==> HasEvent(pods, k))
      && (k in events ==> events[k] == InfoOn(pods[k.1].requests, pods[k.1].name, k.0))
  }

  lemma EventsOfAre(pods: Pods)
    ensures AreEvents(EventsOf(pods), pods)
  {
    forall k: (DevId, Uid) | HasEvent(pods, k)
      ensures k in EventsOf(pods)
    {
      assert k == (k.0, k.1);
    }
  }

  /** Where a pod is entered: in a group of a device. */
  datatype Slot = Slot(dev: DevId, group: QoS, uid: Uid)

  type Table = map<Slot, RunInfo>

  /** Events of unprofiled devices and of nameless pods are skipped. */
  predicate Kept(devices: set<DevId>, events: Events, k: (DevId, Uid)) {
    k in events && k.0 in devices && events[k].name != ""
  }

  /** The event that enters a pod into this slot. */
  predicate Enters(devices: set<DevId>, events: Events, s: Slot) {
    Kept(devices, events, (s.dev, s.uid)) && events[(s.dev, s.uid)].group == s.group
  }

  function Written(devices: set<DevId>, events: Events): Table {
    var slots := set k | k in events :: Slot(k.0, events[k].group, k.1);
    map s | s in slots && Enters(devices, events, s) :: events[(s.dev, s.uid)]
  }

  lemma WrittenAt(devices: set<DevId>, events: Events, s: Slot)
    ensures s in Written(devices, events) <==> Enters(devices, events, s)
  {
    if Enters(devices, events, s) {
      var k := (s.dev, s.uid);
      assert s == Slot(k.0, events[k].group, k.1);
    }
  }

  function Visited(devices: set<DevId>, events: Events): set<Uid> {
    set k | k in events && Kept(devices, events, k) :: k.1
  }

  /** DeleteOutdatePod of every group: by pod, not by device or group. */
  function Pruned(table: Table, visited: set<Uid>): Table {
    map s | s in table && s.uid in visited :: table[s]
  }

  /** ProcessDiskCrData on the request tables. */
  function AfterCr(table: Table, devices: set<DevId>, events: Events): Table {
    Pruned(table, Visited(devices, events)) + Written(devices, events)
  }

  // ---------------------------------------------------------------- the objects

  /** What becomes of a call to the node agent; one that failed may have been carried out. */
  datatype Outcome = Answered | Unanswered | Failed

  /** One node in the aggregator's cache. */
  class Aggregator {
    const isLeader: bool
    /** There is a client to the node agent. */
    const connected: bool
    var reservedPod: Option<set<Uid>>
    var latestGeneration: int
    var queue: seq<PodList>
    var delivered: seq<PodList>

    function Cached(): set<Uid>
      reads this
    {
      if reservedPod.Some? then reservedPod.value else {}
    }

    method GetPodList(generation: int, pods: set<Uid>, added: set<Uid>, answers: Answers) returns (pl: PodList)
      ensures pl == ListOf(Roster(generation, pods), added, answers)
    {
      pl := PodList(generation, map[]);
      var todo := pods;
      while todo != {}
        invariant todo <= pods && pl == ListOf(Roster(generation, pods - todo), added, answers)
      {
        var id :| id in todo;
        todo := todo - {id};
        if id in added {
          if id in answers {
            pl := pl.(pods := pl.pods[id := answers[id]]);
          }
        } else {
          pl := pl.(pods := pl.pods[id := None]);
        }
      }
      assert pods - todo == pods;
    }

    /** One spec taken by SendReservedPodtoQueue. */
    method TakeSpec(spec: Ledger.Spec, answers: Answers)
      modifies this
      ensures reservedPod == Some(spec.reservedPods.Keys) && latestGeneration == spec.generation
      ensures queue == old(queue) +
                       if isLeader then [ListOf(RosterOf(spec), spec.reservedPods.Keys - old(Cached()), answers)]
                       else []
      ensures delivered == old(delivered)
    {
      var added := {};
      var pods := spec.reservedPods.Keys;
      var todo := pods;
      while todo != {}
        invariant todo <= pods && added == (pods - todo) - old(Cached())
        invariant unchanged(this)
      {
        var key :| key in todo;
        if key !in Cached() {
          added := added + {key};
        }
        todo := todo - {key};
      }
      assert added == pods - old(Cached());
      reservedPod, latestGeneration := Some(pods), spec.generation;
      if isLeader {
        var list := GetPodList(spec.generation, pods, added, answers);
        queue := queue + [list];
      }
    }

    /** UpdateNodeIOStatus, for a report of the agent: one of an older generation is refused and a
        full list is queued instead. */
    method UpdateNodeIOStatus(observed: int, answers: Answers) returns (ok: bool)
      modifies this
      ensures ok <==> isLeader && observed >= latestGeneration
      ensures reservedPod == old(reservedPod) && latestGeneration == old(latestGeneration)
      ensures delivered == old(delivered)
      ensures queue == old(queue) + if isLeader && !ok && connected && reservedPod.Some?
                                    then [ListOf(Roster(latestGeneration, Cached()), Cached(), answers)] else []
    {
      if !isLeader {
        return false;
      }
      if observed < latestGeneration {
        if connected && reservedPod.Some? {
          var list := GetPodList(latestGeneration, Cached(), Cached(), answers);
          queue := queue + [list];
        }
        return false;
      }
      return true;
    }

    /** StartWorkQueue and updatePodList: a list that is out of date by now is dropped, and so is
        every list without a client; a failed call is queued again. */
    method UpdatePodList(outcome: Outcome)
      requires queue != []
      modifies this
      ensures var list, due := old(queue)[0], old(queue)[0].generation >= latestGeneration && connected;
              && queue == old(queue)[1..] + (if due && outcome != Answered then [list] else [])
              && delivered == old(delivered) + if due && outcome != Failed then [list] else []
      ensures reservedPod == old(reservedPod) && latestGeneration == old(latestGeneration)
    {
      var list := queue[0];
      queue := queue[1..];
      if list.generation < latestGeneration || !connected {
        return;
      }
      if outcome != Failed {
        delivered := delivered + [list];
      }
      if outcome != Answered {
        queue := queue + [list];
      }
    }
  }

  class Agent {
    /** CrPodRequest. */
    var store: Pods

    method ProcessPodsFromAggregator(list: PodList) returns (events: Events)
      modifies this
      ensures store == Remembered(old(store), list)
      ensures events == EventsOf(Expanded(old(store), list).pods)
    {
      events := map[];
      var todo := list.pods.Keys;
      EventsOfAre(map[]);
      while todo != {}
        invariant todo <= list.pods.Keys
        invariant store == Remembered(old(store), Except(list, todo))
        invariant AreEvents(events, Expanded(old(store), Except(list, todo)).pods)
      {
        var uid :| uid in todo;
        ghost var was := Expanded(old(store), Except(list, todo)).pods;
        RememberOne(old(store), list, todo, uid);
        ExpandOne(old(store), list, todo, uid);
        todo := todo - {uid};
        var request := list.pods[uid];
        if Detailed(request) {
          store := store[uid := request.value];
        } else if uid in store {
          request := Some(store[uid]);
        } else {
          continue;
        }
        events := AddEvents(events, was, uid, request.value);
      }
      assert Except(list, {}) == list;
      EventsOfAre(Expanded(old(store), list).pods);
      SameEvents(events, EventsOf(Expanded(old(store), list).pods), Expanded(old(store), list).pods);
    }

    static method AddEvents(events: Events, ghost was: Pods, uid: Uid, pod: PodRequest) returns (r: Events)
      requires uid !in was && AreEvents(events, was)
      ensures AreEvents(r, was[uid := pod])
    {
      r := events;
      for i := 0 to |pod.requests|
        invariant forall k: (DevId, Uid) | k.1 != uid :: k in r <==> HasEvent(was, k)
        invariant forall k <- r | k.1 != uid :: r[k] == InfoOn(was[k.1].requests, was[k.1].name, k.0)
        invariant forall d: DevId :: (d, uid) in r <==> d in DiskDevs(pod.requests[..i])
        invariant forall d: DevId | (d, uid) in r :: r[(d, uid)] == InfoOn(pod.requests[..i], pod.name, d)
      {
        var request := pod.requests[i];
        DiskDevsAppend(pod.requests[..i], request, pod.name);
        assert pod.requests[..i + 1] == pod.requests[..i] + [request];
        if request.ioType == DiskIO && request.dev.Some? {
          var d := request.dev.value;
          r := r[(d.devName, uid) := Classified(request, d, pod.name)];
        }
      }
      assert pod.requests[..|pod.requests|] == pod.requests;
      EventsGlue(r, was, uid, pod);
    }
  }

  lemma EventsGlue(r: Events, was: Pods, uid: Uid, pod: PodRequest)
    requires forall k: (DevId, Uid) | k.1 != uid ::
               (k in r <==> HasEvent(was, k)) && (k in r ==> r[k] == InfoOn(was[k.1].requests, was[k.1].name, k.0))
    requires forall d: DevId ::
               ((d, uid) in r <==> d in DiskDevs(pod.requests)) &&
               ((d, uid) in r ==> r[(d, uid)] == InfoOn(pod.requests, pod.name, d))
    ensures AreEvents(r, was[uid := pod])
  {
    var more := was[uid := pod];
    forall k: (DevId, Uid)
      ensures k in r <==> HasEvent(more, k)
      ensures k in r ==> r[k] == InfoOn(more[k.1].requests, more[k.1].name, k.0)
    {
      if k.1 == uid {
        assert k == (k.0, uid);
      }
    }
  }

  lemma SameEvents(x: Events, y: Events, pods: Pods)
    requires AreEvents(x, pods) && AreEvents(y, pods)
    ensures x == y
  {
    forall k: (DevId, Uid)
      ensures k in x <==> k in y
      ensures k in x && k in y ==> x[k] == y[k]
    {
      assert k in x <==> HasEvent(pods, k);
    }
  }

  /** The part of a list that has been gone through. */
  function Except(list: PodList, todo: set<Uid>): PodList {
    list.(pods := list.pods - todo)
  }

  lemma RememberOne(store: Pods, list: PodList, todo: set<Uid>, uid: Uid)
    requires uid in todo && todo <= list.pods.Keys
    ensures var known, more := Remembered(store, Except(list, todo)), Remembered(store, Except(list, todo - {uid}));
            more == if Detailed(list.pods[uid]) then known[uid := list.pods[uid].value] else known
  {
    var before := Details(Except(list, todo));
    DetailsOne(list, todo, uid);
    if Detailed(list.pods[uid]) {
      assert store + before[uid := list.pods[uid].value] == (store + before)[uid := list.pods[uid].value];
    }
  }

  lemma DetailsOne(list: PodList, todo: set<Uid>, uid: Uid)
    requires uid in todo && todo <= list.pods.Keys
    ensures var before, after := Details(Except(list, todo)), Details(Except(list, todo - {uid}));
            after == if Detailed(list.pods[uid]) then before[uid := list.pods[uid].value] else before
  {
    var rest, more := Except(list, todo), Except(list, todo - {uid});
    assert forall u :: u in more.pods <==> u in rest.pods || u == uid;
  }

  lemma ExpandOne(store: Pods, list: PodList, todo: set<Uid>, uid: Uid)
    requires uid in todo && todo <= list.pods.Keys
    ensures var known, was := Remembered(store, Except(list, todo)), Expanded(store, Except(list, todo)).pods;
            && uid !in was
            && Expanded(store, Except(list, todo - {uid})).pods ==
               if Detailed(list.pods[uid]) then was[uid := list.pods[uid].value]
               else if uid in known then was[uid := known[uid]]
               else was
  {
    RememberOne(store, list, todo, uid);
    var before, after := Except(list, todo), Except(list, todo - {uid});
    assert after.pods.Keys == before.pods.Keys + {uid};
    ExpandedLooksUp(store, before);
    ExpandedLooksUp(store, after);
    LookUpOne(before.pods.Keys, Remembered(store, before), Remembered(store, after), uid);
  }

  function LookedUp(names: set<Uid>, known: Pods): Pods {
    map u | u in names && u in known :: known[u]
  }

  lemma ExpandedLooksUp(store: Pods, list: PodList)
    ensures Expanded(store, list).pods == LookedUp(list.pods.Keys, Remembered(store, list))
  {
  }

  lemma LookUpOne(names: set<Uid>, known: Pods, more: Pods, uid: Uid)
    requires uid !in names && (uid in known ==> uid in more) && more - {uid} == known - {uid}
    ensures uid !in LookedUp(names, known)
    ensures LookedUp(names + {uid}, more) ==
            if uid in more then LookedUp(names, known)[uid := more[uid]] else LookedUp(names, known)
  {
    forall u | u != uid
      ensures u in more <==> u in known
      ensures u in more ==> more[u] == known[u]
    {
      assert u in more <==> u in more - {uid};
      assert u in more - {uid} ==> (more - {uid})[u] == (known - {uid})[u];
    }
  }

  lemma DiskDevsAppend(rs: seq<IoRequest>, r: IoRequest, name: string)
    ensures forall d: DevId :: d in DiskDevs(rs + [r]) <==> d in DiskDevs(rs) || DiskCache.Asks(r, d)
    ensures forall d: DevId | d in DiskDevs(rs + [r]) :: InfoOn(rs + [r], name, d) ==
                if DiskCache.Asks(r, d) then Classified(r, r.dev.value, name) else InfoOn(rs, name, d)
  {
    var more := rs + [r];
    assert more[..|more| - 1] == rs && more[|more| - 1] == r;
    forall d: DevId
      ensures d in DiskDevs(more) <==> d in DiskDevs(rs) || DiskCache.Asks(r, d)
    {
      if d in DiskDevs(more) {
        var i :| 0 <= i < |more| && more[i].ioType == DiskIO && more[i].dev.Some? && more[i].dev.value.devName == d;
        assert i < |rs| ==> more[i] == rs[i];
      }
      if d in DiskDevs(rs) {
        var i :| 0 <= i < |rs| && rs[i].ioType == DiskIO && rs[i].dev.Some? && rs[i].dev.value.devName == d;
        assert more[i] == rs[i];
      }
    }
  }

  lemma AfterCrAt(table: Table, devices: set<DevId>, events: Events, full: Table)
    requires forall s :: s in full <==> s in table || Enters(devices, events, s)
    requires forall s <- full :: full[s] == if Enters(devices, events, s) then events[(s.dev, s.uid)] else table[s]
    ensures Pruned(full, Visited(devices, events)) == AfterCr(table, devices, events)
  {
    forall s: Slot
      ensures s in Written(devices, events) <==> Enters(devices, events, s)
      ensures Enters(devices, events, s) ==> s.uid in Visited(devices, events)
    {
      WrittenAt(devices, events, s);
      if Enters(devices, events, s) {
        var k := (s.dev, s.uid);
        assert Kept(devices, events, k);
      }
    }
  }

  // ---------------------------------------------------------------- deltas against full lists

  datatype AgentState = AgentState(store: Pods, table: Table)

  /** What remains of the tables when pods are unregistered. */
  function Without(table: Table, gone: set<Uid>): Table {
    map s | s in table && s.uid !in gone :: table[s]
  }

  /** What the agent makes of one list and of unregistering the pods `gone` after it. */
  function Handled(a: AgentState, devices: set<DevId>, list: PodList, gone: set<Uid>): AgentState {
    AgentState(Remembered(a.store, list),
               Without(AfterCr(a.table, devices, EventsOf(Expanded(a.store, list).pods)), gone))
  }

  /** A roster the aggregator takes, with what the API server has at that moment, and the pods the
      agent unregisters between the list made from it and the next one. */
  datatype Round = Round(roster: Roster, answers: Answers, gone: set<Uid>)

  function FullList(r: Round): PodList {
    ListOf(r.roster, r.roster.pods, r.answers)
  }

  /** The list the aggregator sends if the pods it sent last are `prev`. */
  function DeltaList(r: Round, prev: set<Uid>): PodList {
    ListOf(r.roster, r.roster.pods - prev, r.answers)
  }

  function LastPods(rounds: seq<Round>): set<Uid> {
    if rounds == [] then {} else rounds[|rounds| - 1].roster.pods
  }

  function DeltaRun(a: AgentState, devices: set<DevId>, rounds: seq<Round>): AgentState {
    if rounds == [] then a
    else
      var before, r := rounds[..|rounds| - 1], rounds[|rounds| - 1];
      Handled(DeltaRun(a, devices, before), devices, DeltaList(r, LastPods(before)), r.gone)
  }

  function FullRun(a: AgentState, devices: set<DevId>, rounds: seq<Round>): AgentState {
    if rounds == [] then a
    else
      var before, r := rounds[..|rounds| - 1], rounds[|rounds| - 1];
      Handled(FullRun(a, devices, before), devices, FullList(r), r.gone)
  }

  predicate Readable(r: Round) {
    r.roster.pods <= r.answers.Keys
  }

  /** The store has the details of these pods. */
  predicate Knows(store: Pods, pods: set<Uid>, answers: Answers) {
    forall u | u in pods && u in answers && Detailed(answers[u]) :: u in store && store[u] == answers[u].value
  }

  /** One delta does what the full list would have done exactly if none of the pods it leaves out has
      details other than those in the store. */
  lemma DeltaStepIff(a: AgentState, r: Round, prev: set<Uid>)
    requires Readable(r)
    ensures var delta, full := DeltaList(r, prev), FullList(r);
            (&& Remembered(a.store, delta) == Remembered(a.store, full)
             && Expanded(a.store, delta) == Expanded(a.store, full))
              <==> Knows(a.store, r.roster.pods * prev, r.answers)
  {
    var delta, full := DeltaList(r, prev), FullList(r);
    assert delta.pods.Keys == full.pods.Keys == r.roster.pods;
    var x, y := Remembered(a.store, delta), Remembered(a.store, full);
    if x == y {
      forall u | u in r.roster.pods * prev && Detailed(r.answers[u])
        ensures u in a.store && a.store[u] == r.answers[u].value
      {
        assert delta.pods[u] == None && y[u] == r.answers[u].value && u in x;
      }
    }
    if Knows(a.store, r.roster.pods * prev, r.answers) {
      forall u
        ensures u in x <==> u in y
        ensures u in x && u in y ==> x[u] == y[u]
      {
        assert u in r.roster.pods && u in prev ==> u in r.roster.pods * prev;
      }
      assert x == y;
    }
  }

  /** The annotation of a pod does not change while the pod stays listed. */
  predicate StableFrom(r: Round, next: Round) {
    forall u | u in r.roster.pods && u in next.roster.pods && u in r.answers && u in next.answers ::
      r.answers[u] == next.answers[u]
  }

  predicate Stable(rounds: seq<Round>) {
    && (forall i | 0 <= i < |rounds| :: Readable(rounds[i]))
    && (forall i | 0 < i < |rounds| :: StableFrom(rounds[i - 1], rounds[i]))
  }

  /** Sending only the details of new pods does, from any state of the agent, exactly what sending
      the full list every time would do. */
  lemma {:induction false} DeltaRefinesFull(a: AgentState, devices: set<DevId>, rounds: seq<Round>)
    requires Stable(rounds)
    ensures DeltaRun(a, devices, rounds) == FullRun(a, devices, rounds)
    ensures rounds != [] ==>
              var r := rounds[|rounds| - 1];
              Knows(FullRun(a, devices, rounds).store, r.roster.pods, r.answers)
  {
    if rounds != [] {
      var n := |rounds| - 1;
      var before, r := rounds[..n], rounds[n];
      assert Readable(r);
      DeltaRefinesFull(a, devices, before);
      if n > 0 {
        assert StableFrom(rounds[n - 1], rounds[n]) && Readable(rounds[n - 1]);
      }
      var m := FullRun(a, devices, before);
      assert Knows(m.store, r.roster.pods * LastPods(before), r.answers);
      DeltaStepIff(m, r, LastPods(before));
    }
  }

  /** What the agent makes of a delta is what it would make of the full list exactly if the delta
      leaves out nothing that the store lacks. */
  lemma HandledIff(a: AgentState, devices: set<DevId>, r: Round, prev: set<Uid>)
    requires Readable(r)
    ensures Handled(a, devices, DeltaList(r, prev), r.gone) == Handled(a, devices, FullList(r), r.gone)
            <==> Knows(a.store, r.roster.pods * prev, r.answers)
  {
    DeltaStepIff(a, r, prev);
    if Handled(a, devices, DeltaList(r, prev), r.gone) == Handled(a, devices, FullList(r), r.gone) {
      RememberedKnows(a.store, r, prev);
    }
  }

  lemma RememberedKnows(store: Pods, r: Round, prev: set<Uid>)
    requires Readable(r) && Remembered(store, DeltaList(r, prev)) == Remembered(store, FullList(r))
    ensures Knows(store, r.roster.pods * prev, r.answers)
  {
    var delta, full := DeltaList(r, prev), FullList(r);
    forall u | u in r.roster.pods * prev && Detailed(r.answers[u])
      ensures u in store && store[u] == r.answers[u].value
    {
      assert delta.pods[u] == None && Remembered(store, full)[u] == r.answers[u].value;
      assert u in Remembered(store, delta);
    }
  }

  /** Delta `n` leaves out nothing that the agent's store lacks when it arrives. */
  predicate Suffices(a: AgentState, devices: set<DevId>, rounds: seq<Round>, n: nat)
    requires n < |rounds|
  {
    var before, r := rounds[..n], rounds[n];
    Knows(DeltaRun(a, devices, before).store, r.roster.pods * LastPods(before), r.answers)
  }

  predicate SameAt(a: AgentState, devices: set<DevId>, rounds: seq<Round>, n: nat)
    requires n <= |rounds|
  {
    DeltaRun(a, devices, rounds[..n]) == FullRun(a, devices, rounds[..n])
  }

  lemma SameNext(a: AgentState, devices: set<DevId>, rounds: seq<Round>, n: nat)
    requires n < |rounds| && Readable(rounds[n]) && SameAt(a, devices, rounds, n)
    ensures SameAt(a, devices, rounds, n + 1) <==> Suffices(a, devices, rounds, n)
  {
    var before, r := rounds[..n], rounds[n];
    assert rounds[..n + 1][..n] == before && rounds[..n + 1][n] == r;
    HandledIff(DeltaRun(a, devices, before), devices, r, LastPods(before));
  }

  lemma {:induction false} SameWhileSufficient(a: AgentState, devices: set<DevId>, rounds: seq<Round>, n: nat)
    requires n <= |rounds| && forall i | 0 <= i < |rounds| :: Readable(rounds[i])
    requires forall i | 0 <= i < n :: Suffices(a, devices, rounds, i)
    ensures SameAt(a, devices, rounds, n)
  {
    if n > 0 {
      SameWhileSufficient(a, devices, rounds, n - 1);
      SameNext(a, devices, rounds, n - 1);
    }
  }

  /** Over every run of readable lists, and whatever is unregistered in between: sending details of new
      pods only does at every moment what sending the full lists would have done exactly if no list
      leaves out details that the agent's store lacks or has otherwise. */
  lemma AlwaysSameIff(a: AgentState, devices: set<DevId>, rounds: seq<Round>)
    requires forall i | 0 <= i < |rounds| :: Readable(rounds[i])
    ensures (forall n | 0 <= n <= |rounds| :: SameAt(a, devices, rounds, n))
            <==> forall n | 0 <= n < |rounds| :: Suffices(a, devices, rounds, n)
  {
    if forall n | 0 <= n < |rounds| :: Suffices(a, devices, rounds, n) {
      forall n | 0 <= n <= |rounds|
        ensures SameAt(a, devices, rounds, n)
      {
        SameWhileSufficient(a, devices, rounds, n);
      }
    }
    if forall n | 0 <= n <= |rounds| :: SameAt(a, devices, rounds, n) {
      forall n | 0 <= n < |rounds|
        ensures Suffices(a, devices, rounds, n)
      {
        assert SameAt(a, devices, rounds, n) && SameAt(a, devices, rounds, n + 1);
        SameNext(a, devices, rounds, n);
      }
    }
  }

  /** A round that lists "p" alone, with these details. */
  function JustP(generation: int, pod: PodRequest): Round {
    Round(Roster(generation, {"p"}), map["p" := Some(pod)], {})
  }

  lemma JustPLists(generation: int, pod: PodRequest)
    requires pod.requests != []
    ensures Details(FullList(JustP(generation, pod))) == map["p" := pod]
    ensures DeltaList(JustP(generation, pod), {}) == FullList(JustP(generation, pod))
    ensures Details(DeltaList(JustP(generation, pod), {"p"})) == map[]
  {
    assert {"p"} - {} == {"p"} && {"p"} - {"p"} == {};
  }

  lemma StoreAfter(a: AgentState, devices: set<DevId>, before: seq<Round>, r: Round)
    ensures DeltaRun(a, devices, before + [r]).store
            == DeltaRun(a, devices, before).store + Details(DeltaList(r, LastPods(before)))
    ensures FullRun(a, devices, before + [r]).store == FullRun(a, devices, before).store + Details(FullList(r))
  {
    assert (before + [r])[..|before|] == before;
  }

  lemma FirstTold(a: AgentState, devices: set<DevId>, pod: PodRequest, one: seq<Round>)
    requires pod.requests != [] && a.store == map[] && one == [] + [JustP(1, pod)]
    ensures DeltaRun(a, devices, one).store == FullRun(a, devices, one).store == map["p" := pod]
  {
    JustPLists(1, pod);
    StoreAfter(a, devices, [], JustP(1, pod));
  }

  lemma ToldAgain(a: AgentState, devices: set<DevId>, one: seq<Round>, r: Round, was: PodRequest, now: PodRequest)
    requires DeltaRun(a, devices, one).store == FullRun(a, devices, one).store == map["p" := was]
    requires Details(DeltaList(r, LastPods(one))) == map[] && Details(FullList(r)) == map["p" := now]
    ensures DeltaRun(a, devices, one + [r]).store == map["p" := was]
    ensures FullRun(a, devices, one + [r]).store == map["p" := now]
  {
    StoreAfter(a, devices, one, r);
    Replaced(was, now);
  }

  lemma Replaced(was: PodRequest, now: PodRequest)
    ensures map["p" := was] + map[] == map["p" := was] && map["p" := was] + map["p" := now] == map["p" := now]
  {
  }

  /** The annotation of "p" changes while "p" stays listed: the agent keeps what it was told first. */
  lemma ChangedAnnotationMissed(a: AgentState, devices: set<DevId>, was: PodRequest, now: PodRequest)
    requires a.store == map[] && was.requests != [] && now.requests != [] && was != now
    ensures var rounds := [JustP(1, was)] + [JustP(2, now)];
            && DeltaRun(a, devices, rounds).store == map["p" := was]
            && FullRun(a, devices, rounds).store == map["p" := now]
  {
    var one := [] + [JustP(1, was)];
    FirstTold(a, devices, was, one);
    JustPLists(2, now);
    ToldAgain(a, devices, one, JustP(2, now), was, now);
  }

  // ---------------------------------------------------------------- the tables are exact

  /** A pod of the new list is still entered elsewhere. */
  predicate Leftover(table: Table, devices: set<DevId>, events: Events) {
    exists s <- table :: s.uid in Visited(devices, events) && !Enters(devices, events, s)
  }

  /** One list restores the tables, from any state, exactly if it leaves nothing over: pods are
      deleted by name only, so an old entry of a listed pod in another group or on another device
      survives. */
  lemma ResyncRestoresIff(table: Table, devices: set<DevId>, events: Events)
    ensures AfterCr(table, devices, events) == Written(devices, events) <==> !Leftover(table, devices, events)
  {
    var r, w := AfterCr(table, devices, events), Written(devices, events);
    if Leftover(table, devices, events) {
      var s :| s in table && s.uid in Visited(devices, events) && !Enters(devices, events, s);
      WrittenAt(devices, events, s);
      assert s in r;
    } else {
      forall s: Slot
        ensures s in r <==> s in w
      {
        WrittenAt(devices, events, s);
      }
    }
  }

  /** The requests of a pod whose annotation changes from guaranteed to burstable count twice. */
  lemma ChangedPodCountsTwice(devices: set<DevId>, dev: DevId, uid: Uid, info: RunInfo)
    requires dev in devices && info.name != "" && info.group == GA
    ensures var once := AfterCr(map[], devices, map[(dev, uid) := info]);
            var twice := AfterCr(once, devices, map[(dev, uid) := info.(group := BT)]);
            Slot(dev, GA, uid) in twice && Slot(dev, BT, uid) in twice
  {
    var first, second := map[(dev, uid) := info], map[(dev, uid) := info.(group := BT)];
    assert Enters(devices, first, Slot(dev, GA, uid)) && Enters(devices, second, Slot(dev, BT, uid));
    WrittenAt(devices, first, Slot(dev, GA, uid));
    WrittenAt(devices, second, Slot(dev, BT, uid));
    assert Kept(devices, second, (dev, uid));
  }

  predicate AllDetailed(r: Round) {
    forall u <- r.roster.pods :: u in r.answers && Detailed(r.answers[u])
  }

  /** The details of all listed pods. */
  function Wanted(r: Round): Pods {
    map u | u in r.roster.pods && u in r.answers && Detailed(r.answers[u]) :: r.answers[u].value
  }

  lemma FullListExpands(store: Pods, r: Round)
    requires AllDetailed(r)
    ensures Expanded(store, FullList(r)).pods == Wanted(r)
  {
    assert FullList(r).pods.Keys == r.roster.pods;
  }

  /** A pod that stays has the same events, so its entries stay the right ones. */
  lemma StableLeavesNothing(devices: set<DevId>, r: Round, next: Round)
    requires AllDetailed(r) && AllDetailed(next) && StableFrom(r, next)
    ensures !Leftover(Without(Written(devices, EventsOf(Wanted(r))), r.gone), devices, EventsOf(Wanted(next)))
  {
    var x, y := EventsOf(Wanted(r)), EventsOf(Wanted(next));
    EventsOfAre(Wanted(r));
    EventsOfAre(Wanted(next));
    forall s | s in Written(devices, x) && s.uid in Visited(devices, y)
      ensures Enters(devices, y, s)
    {
      WrittenAt(devices, x, s);
      var k := (s.dev, s.uid);
      assert HasEvent(Wanted(r), k);
      assert Wanted(r)[s.uid] == Wanted(next)[s.uid];
      assert HasEvent(Wanted(next), k);
    }
  }

  /** After any number of delta lists the tables hold exactly the requests of the listed pods, each
      in its device and group, if the first list left nothing over; only the pods unregistered since
      the last list are missing. */
  lemma {:induction false} DeltaListsExact(a: AgentState, devices: set<DevId>, rounds: seq<Round>)
    requires rounds != [] && Stable(rounds) && forall i | 0 <= i < |rounds| :: AllDetailed(rounds[i])
    requires !Leftover(a.table, devices, EventsOf(Wanted(rounds[0])))
    ensures var r := rounds[|rounds| - 1];
            DeltaRun(a, devices, rounds).table == Without(Written(devices, EventsOf(Wanted(r))), r.gone)
  {
    DeltaRefinesFull(a, devices, rounds);
    var n := |rounds| - 1;
    var before, r := rounds[..n], rounds[n];
    assert AllDetailed(r);
    var m := FullRun(a, devices, before);
    FullListExpands(m.store, r);
    if n > 0 {
      DeltaListsExact(a, devices, before);
      DeltaRefinesFull(a, devices, before);
      assert AllDetailed(rounds[n - 1]) && StableFrom(rounds[n - 1], rounds[n]);
      StableLeavesNothing(devices, rounds[n - 1], r);
    }
    ResyncRestoresIff(m.table, devices, EventsOf(Wanted(r)));
  }
}
