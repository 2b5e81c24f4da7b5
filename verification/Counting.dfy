/** What the numbers that overwrite the scheduler's cache count, in terms of the ledger: the runs of
    `Protocol` give the statuses that the runs of `StatusRuns` take. */
module Counting {
  import opened IoTypes
  import opened PodLists
  import opened Protocol
  import Agreement
  import Annotation
  import DiskCache
  import StatusRuns

  /** What was read is the annotation of this pod. */
  ghost predicate Reads(found: PodRequest, pod: PodRequest) {
    found.name != "" && Annotation.Lists(found.requests, Annotation.Encoded(pod.requests))
  }

  ghost predicate AllRead(found: Pods, master: Pods) {
    forall u <- found :: u in master && Reads(found[u], master[u])
  }

  predicate AllFrom(pods: Pods, master: Pods) {
    forall u <- pods :: u in master && pods[u] == master[u]
  }

  ghost predicate Answering(answers: Answers, master: Pods) {
    forall u <- answers | Detailed(answers[u]) :: u in master && Reads(answers[u].value, master[u])
  }

  /** A pod id is reserved with one request only, and the API server answers with its annotation. */
  ghost predicate Annotated(op: Op, master: Pods) {
    match op
    case Reserve(uid, req) => uid in master && master[uid] == req
    case TakeSpec(_, answers) => Answering(answers, master)
    case Refuse(_, answers) => Answering(answers, master)
    case Fetch(answers) => Answering(answers, master)
    case _ => true
  }

  ghost predicate AllAnnotated(ops: seq<Op>, master: Pods) {
    forall i | 0 <= i < |ops| :: Annotated(ops[i], master)
  }

  /** Whatever details are on the way or stored are annotations of the pods they are about. */
  ghost predicate Told(s: State, master: Pods) {
    && AllFrom(s.pods, master)
    && (forall list <- s.lists + s.sent :: AllRead(Details(list), master))
    && AllRead(s.store, master)
    && (forall data <- s.inbox :: AllRead(data.pods, master))
    && (forall kind <- s.view :: AllRead(s.view[kind], master))
  }

  lemma ListTold(roster: Roster, added: set<Uid>, answers: Answers, master: Pods)
    requires Answering(answers, master)
    ensures AllRead(Details(ListOf(roster, added, answers)), master)
  {
  }

  lemma ExpandedTold(store: Pods, list: PodList, master: Pods)
    requires AllRead(store, master) && AllRead(Details(list), master)
    ensures AllRead(Remembered(store, list), master) && AllRead(Expanded(store, list).pods, master)
  {
  }

  lemma LessTold(found: Pods, gone: set<Uid>, master: Pods)
    requires AllRead(found, master)
    ensures AllRead(found - gone, master)
  {
  }

  /** A new list, queued or sent. */
  lemma AddListTold(s: State, r: State, list: PodList, master: Pods)
    requires Told(s, master) && AllRead(Details(list), master)
    requires r.lists + r.sent <= s.lists + s.sent + {list}
    requires r.pods == s.pods && r.store == s.store && r.inbox == s.inbox && r.view == s.view
    ensures Told(r, master)
  {
  }

  lemma ViewTold(s: State, r: State, kind: IoType, pods: Pods, master: Pods)
    requires Told(s, master) && AllRead(pods, master) && r.view == s.view[kind := pods]
    requires r.pods == s.pods && r.store == s.store && r.inbox == s.inbox && r.lists == s.lists && r.sent == s.sent
    ensures Told(r, master)
  {
  }

  lemma ReceiveTold(s: State, list: PodList, master: Pods)
    requires Told(s, master) && Enabled(s, Receive(list))
    ensures Told(Next(s, Receive(list)), master)
  {
    assert list in s.lists + s.sent;
    ExpandedTold(s.store, list, master);
  }

  lemma StepTold(s: State, op: Op, master: Pods)
    requires Told(s, master) && Enabled(s, op) && Annotated(op, master)
    ensures Told(Next(s, op), master)
  {
    var r := Next(s, op);
    match op
    case TakeSpec(spec, answers) =>
      var added := spec.pods - s.latest.pods;
      ListTold(spec, added, answers, master);
      AddListTold(s, r, ListOf(spec, added, answers), master);
    case Refuse(_, answers) =>
      ListTold(s.latest, s.latest.pods, answers, master);
      AddListTold(s, r, ListOf(s.latest, s.latest.pods, answers), master);
    case Fetch(answers) =>
      ListTold(s.latest, s.latest.pods, answers, master);
      AddListTold(s, r, ListOf(s.latest, s.latest.pods, answers), master);
    case Send(list) =>
      assert list in s.lists + s.sent;
      AddListTold(s, r, list, master);
    case Receive(list) => ReceiveTold(s, list, master);
    case Process(kind, data) => ViewTold(s, r, kind, data.pods, master);
    case Unregister(kind, uid) =>
      LessTold(s.view[kind], {uid}, master);
      ViewTold(s, r, kind, s.view[kind] - {uid}, master);
    case _ =>
  }

  lemma InitiallyTold(s: State, kinds: set<IoType>, master: Pods)
    requires Initial(s, kinds)
    ensures Told(s, master)
  {
  }

  lemma {:induction false} RunTold(kinds: set<IoType>, states: seq<State>, ops: seq<Op>, n: nat, master: Pods)
    requires IsRun(kinds, states, ops) && AllAnnotated(ops, master) && n < |states|
    ensures Told(states[n], master)
  {
    if n > 0 {
      RunTold(kinds, states, ops, n - 1, master);
      assert StepAt(states, ops, n - 1);
      StepTold(states[n - 1], ops[n - 1], master);
    } else {
      InitiallyTold(states[0], kinds, master);
    }
  }

  /** What the scheduler reserved for a disk, and where the agent enters it.  Operation counts of request
      and limit do not survive the annotation, so only bandwidths decide. */
  predicate BandwidthsBelong(r: IoRequest, group: QoS) {
    && r.dev.Some?
    && var q, l := OrZero(r.dev.value.request), OrZero(r.dev.value.limit);
       var same := q.inbps == l.inbps && q.outbps == l.outbps;
       match group
       case GA => r.qos != BE && same
       case BT => r.qos != BE && !same
       case BE => r.qos == BE
  }

  lemma ReadBelongs(back: IoRequest, r: IoRequest, group: QoS)
    requires Annotation.ReadsAs(back, r)
    ensures Agreement.BelongsIn(back, group) <==> BandwidthsBelong(r, group)
  {
  }

  /** From the ledger through the annotation to the agent's tables: a pod is in a group of a device
      exactly if what was reserved for it there belongs in that group. */
  lemma ReservedEnteredIff(counted: Pods, pods: Pods, devices: set<DevId>, u: Uid, dev: DevId, i: nat, group: QoS)
    requires StatusRuns.CountsSome(counted, pods) && u in counted && dev in devices
    requires DiskCache.Clean(pods[u].requests) && i < |pods[u].requests| && DiskCache.Asks(pods[u].requests[i], dev)
    ensures Slot(dev, group, u) in Written(devices, EventsOf(counted)) <==> BandwidthsBelong(pods[u].requests[i], group)
  {
    var rs, back := pods[u].requests, counted[u].requests;
    StatusRuns.BackClean(rs, back);
    var j := StatusRuns.BackAsks(rs, back, i, dev);
    assert back[j] in back;
    var k := StatusRuns.BackFrom(rs, back, back[j]);
    assert k == i;
    ReadBelongs(back[j], rs[i], group);
    Agreement.EnteredIff(counted, devices, u, dev, j, group);
  }

  lemma ReadCounts(counted: Pods, pods: Pods, master: Pods)
    requires AllRead(counted, master) && AllFrom(pods, master) && counted.Keys <= pods.Keys
    ensures StatusRuns.CountsSome(counted, pods)
  {
  }

  /** Whatever overwrites the pools in a run of the protocol counts pods of the ledger as it is then,
      each as its annotation reads. */
  lemma OverwriteCountsSome(kind: IoType, states: seq<State>, ops: seq<Op>, n: nat, master: Pods)
    requires IsRun({kind}, states, ops) && AllAnnotated(ops, master)
    requires n < |ops| && Overwrites(states[n], ops[n], kind)
    ensures StatusRuns.CountsSome(ops[n].after.numbers[kind].counted, states[n].pods)
  {
    OverwriteIsCurrent(kind, states, ops, n);
    var m: nat, j: nat :| CurrentAt(states, ops, kind, n, m, j);
    RunTold({kind}, states, ops, m, master);
    RunTold({kind}, states, ops, n, master);
    ReadCounts(ops[n].after.numbers[kind].counted, states[n].pods, master);
  }

  /** It counts the whole ledger exactly if no reserved pod was unknown when the list behind the numbers
      was received, and none was unregistered before they were computed. */
  lemma CountsLedgerIff(kind: IoType, states: seq<State>, ops: seq<Op>, n: nat, master: Pods)
    returns (x: nat, y: nat, m: nat)
    requires IsRun({kind}, states, ops) && AllAnnotated(ops, master)
    requires n < |ops| && Overwrites(states[n], ops[n], kind) && states[n].pods != map[]
    ensures x < y < m < n && ops[x].Receive? && ops[x].list.generation == states[n].generation
    ensures ops[y] == Process(kind, Expanded(states[x].store, ops[x].list))
    ensures ComputedAt(states, ops, m, Report(kind, states[n].generation, ops[n].after.numbers[kind].counted))
    ensures StatusRuns.CountsLedger(ops[n].after.numbers[kind].counted, states[n].pods)
            <==> forall uid <- states[n].pods :: !Lost(states, ops, kind, x, y, m, uid)
  {
    x, y, m := MissedIff(kind, states, ops, n);
    OverwriteCountsSome(kind, states, ops, n, master);
    var counted := ops[n].after.numbers[kind].counted;
    assert forall uid <- states[n].pods :: uid !in counted <==> Lost(states, ops, kind, x, y, m, uid);
    assert states[n].pods.Keys <= counted.Keys <==> forall uid <- states[n].pods :: uid in counted;
  }
}
