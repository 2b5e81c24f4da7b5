/** The disk engine of the node agent (pkg/agent/disk/engine.go: RegisterPod, ProcessNriData and
    ProcessDiskCrData; pkg/agent/common/workload.go: DeleteOutdatePod): the request tables of `PodLists`
    and the registrations of `Rendezvous` are fields of one object, and unregistering a pod takes it
    out of the tables and reports what is left. */
module Engine {
  import opened IoTypes
  import opened PodLists
  import opened Rendezvous
  import opened Sorting

  /** What a runtime event says about one pod. */
  datatype NriEvent = NriEvent(namespace: string, path: string, ops: Bits)

  const PodPrefix := "/sys/fs/cgroup"

  /** The generation and the tables that the numbers of a report are computed from. */
  datatype Sent = Sent(generation: int, table: Table)

  // ---------------------------------------------------------------- the calls about one pod

  /** The calls about one pod, in order. */
  function About(log: seq<(Uid, Call)>, uid: Uid): seq<Call> {
    if log == [] then []
    else
      var last := |log| - 1;
      About(log[..last], uid) + if log[last].0 == uid then [log[last].1] else []
  }

  lemma {:induction false} AboutConcat(log: seq<(Uid, Call)>, more: seq<(Uid, Call)>, uid: Uid)
    ensures About(log + more, uid) == About(log, uid) + About(more, uid)
  {
    if more == [] {
      assert log + more == log;
    } else {
      var last := |more| - 1;
      assert (log + more)[..|log| + last] == log + more[..last];
      AboutConcat(log, more[..last], uid);
    }
  }

  function Tagged(uid: Uid, calls: seq<Call>): seq<(Uid, Call)> {
    seq(|calls|, i requires 0 <= i < |calls| => (uid, calls[i]))
  }

  lemma {:induction false} AboutTagged(uid: Uid, calls: seq<Call>, u: Uid)
    ensures About(Tagged(uid, calls), u) == if u == uid then calls else []
  {
    if calls != [] {
      var last := |calls| - 1;
      assert Tagged(uid, calls)[..last] == Tagged(uid, calls[..last]);
      AboutTagged(uid, calls[..last], u);
    }
  }

  lemma AboutMore(log: seq<(Uid, Call)>, podId: Uid, calls: seq<Call>)
    ensures forall uid :: About(log + Tagged(podId, calls), uid) == About(log, uid) + if uid == podId then calls else []
  {
    forall uid
      ensures About(log + Tagged(podId, calls), uid) == About(log, uid) + if uid == podId then calls else []
    {
      AboutConcat(log, Tagged(podId, calls), uid);
      AboutTagged(podId, calls, uid);
    }
  }

  function Entry(infos: map<Uid, RegInfo>, uid: Uid): Option<RegInfo> {
    if uid in infos then Some(infos[uid]) else None
  }

  function StateOf(infos: map<Uid, RegInfo>, log: seq<(Uid, Call)>, uid: Uid): PodState {
    PodState(Entry(infos, uid), About(log, uid))
  }

  /** RegisterPod has looked at every pod except those of `todo`. */
  ghost predicate SettledBut(todo: set<Uid>, infos: map<Uid, RegInfo>, log: seq<(Uid, Call)>,
                             infosNow: map<Uid, RegInfo>, logNow: seq<(Uid, Call)>)
  {
    forall uid :: StateOf(infosNow, logNow, uid) ==
                  if uid in todo then StateOf(infos, log, uid) else Settled(Entry(infos, uid), About(log, uid))
  }

  ghost predicate OneSettled(podId: Uid, infos: map<Uid, RegInfo>, log: seq<(Uid, Call)>, infosNow: map<Uid, RegInfo>,
                             logNow: seq<(Uid, Call)>)
  {
    forall uid :: StateOf(infosNow, logNow, uid) ==
                  if uid != podId then StateOf(infos, log, uid) else Settled(Entry(infos, uid), About(log, uid))
  }

  lemma OneMoreSettled(todo: set<Uid>, podId: Uid, infos: map<Uid, RegInfo>, log: seq<(Uid, Call)>,
                       infosNow: map<Uid, RegInfo>, logNow: seq<(Uid, Call)>, infosNext: map<Uid, RegInfo>,
                       logNext: seq<(Uid, Call)>)
    requires podId in todo && SettledBut(todo, infos, log, infosNow, logNow)
    requires OneSettled(podId, infosNow, logNow, infosNext, logNext)
    ensures SettledBut(todo - {podId}, infos, log, infosNext, logNext)
  {
    assert StateOf(infosNow, logNow, podId) == StateOf(infos, log, podId);
  }

  lemma SettledNow(podId: Uid, infos: map<Uid, RegInfo>, log: seq<(Uid, Call)>)
    requires podId in infos && Ready(infos[podId])
    ensures var i := infos[podId];
            OneSettled(podId, infos, log, if Stops(i) then infos - {podId} else infos[podId := Left(i).value],
                       log + Tagged(podId, CallsFor(i)))
  {
    AboutMore(log, podId, CallsFor(infos[podId]));
  }

  // ---------------------------------------------------------------- what RegisterPod does to the tables

  /** The pods RegisterPod does something about, and those it unregisters. */
  function Due(infos: map<Uid, RegInfo>): set<Uid> {
    set u | u in infos && Ready(infos[u])
  }

  function Stopped(infos: map<Uid, RegInfo>): set<Uid> {
    set u | u in infos && Stops(infos[u])
  }

  lemma WithoutMore(table: Table, gone: set<Uid>, more: set<Uid>)
    ensures Without(Without(table, gone), more) == Without(table, gone + more)
  {
  }

  lemma WithoutNone(table: Table)
    ensures Without(table, {}) == table
  {
  }

  /** `x` is part of `y`. */
  predicate Part(x: Table, y: Table) {
    forall s <- x :: s in y && x[s] == y[s]
  }

  /** What RegisterPod sends: one report for each pod it does something about, all under the same
      generation, the last of them from the final tables. */
  predicate Reported(was: seq<Sent>, now: seq<Sent>, count: int, generation: int, before: Table, after: Table) {
    && |now| == |was| + count && was <= now
    && (forall i | |was| <= i < |now| ::
          now[i].generation == generation && Part(now[i].table, before) && Part(after, now[i].table))
    && if count > 0 then now[|now| - 1] == Sent(generation, after) else after == before
  }

  lemma ReportedMore(was: seq<Sent>, now: seq<Sent>, count: nat, generation: int, before: Table, after: Table,
                     gone: set<Uid>)
    requires Reported(was, now, count, generation, before, after) && Part(after, before)
    ensures var rest := Without(after, gone);
            Reported(was, now + [Sent(generation, rest)], count + 1, generation, before, rest) && Part(rest, before)
  {
    var rest := Without(after, gone);
    var more := now + [Sent(generation, rest)];
    forall i | |was| <= i < |more|
      ensures more[i].generation == generation && Part(more[i].table, before) && Part(rest, more[i].table)
    {
      if i < |now| {
        assert more[i] == now[i];
      }
    }
  }

  /** What RegisterPod has done to the tables when the pods of `todo` are left. */
  ghost predicate Progress(infos: map<Uid, RegInfo>, todo: set<Uid>, generation: int, before: Table, was: seq<Sent>,
                           after: Table, now: seq<Sent>)
  {
    && after == Without(before, Stopped(infos) - todo)
    && Part(after, before)
    && Reported(was, now, |Due(infos) - todo|, generation, before, after)
  }

  lemma NoProgress(infos: map<Uid, RegInfo>, generation: int, table: Table, reports: seq<Sent>)
    ensures Progress(infos, infos.Keys, generation, table, reports, table, reports)
  {
    assert Stopped(infos) - infos.Keys == {} && Due(infos) - infos.Keys == {};
    WithoutNone(table);
  }

  lemma OneLess(infos: map<Uid, RegInfo>, todo: set<Uid>, podId: Uid)
    requires podId in todo && podId in infos && Ready(infos[podId])
    ensures Stopped(infos) - (todo - {podId}) == Stopped(infos) - todo + if Stops(infos[podId]) then {podId} else {}
    ensures |Due(infos) - (todo - {podId})| == |Due(infos) - todo| + 1
  {
    assert Due(infos) - (todo - {podId}) == Due(infos) - todo + {podId};
  }

  lemma ProgressDue(infos: map<Uid, RegInfo>, todo: set<Uid>, generation: int, before: Table, was: seq<Sent>,
                    after: Table, now: seq<Sent>, podId: Uid, rest: Table)
    requires podId in todo && podId in infos && Progress(infos, todo, generation, before, was, after, now)
    requires Ready(infos[podId]) && rest == Without(after, if Stops(infos[podId]) then {podId} else {})
    ensures Progress(infos, todo - {podId}, generation, before, was, rest, now + [Sent(generation, rest)])
  {
    var more := if Stops(infos[podId]) then {podId} else {};
    WithoutMore(before, Stopped(infos) - todo, more);
    ReportedMore(was, now, |Due(infos) - todo|, generation, before, after, more);
    OneLess(infos, todo, podId);
  }

  lemma ProgressIdle(infos: map<Uid, RegInfo>, todo: set<Uid>, generation: int, before: Table, was: seq<Sent>,
                     after: Table, now: seq<Sent>, podId: Uid)
    requires podId in todo && podId in infos && Progress(infos, todo, generation, before, was, after, now)
    requires !Ready(infos[podId])
    ensures Progress(infos, todo - {podId}, generation, before, was, after, now)
  {
    assert Stopped(infos) - (todo - {podId}) == Stopped(infos) - todo;
    assert Due(infos) - (todo - {podId}) == Due(infos) - todo;
  }

  lemma AllProgress(infos: map<Uid, RegInfo>, generation: int, before: Table, was: seq<Sent>, after: Table,
                    now: seq<Sent>)
    requires Progress(infos, {}, generation, before, was, after, now)
    ensures after == Without(before, Stopped(infos))
    ensures Reported(was, now, |Due(infos)|, generation, before, after)
  {
    assert Stopped(infos) - {} == Stopped(infos) && Due(infos) - {} == Due(infos);
  }

  /** What becomes of the tables and the reports when RegisterPod looks at one pod. */
  predicate SettledTables(i: RegInfo, podId: Uid, generation: int, was: Table, sent: seq<Sent>, table: Table,
                          reports: seq<Sent>)
  {
    if Ready(i) then
      table == Without(was, if Stops(i) then {podId} else {}) && reports == sent + [Sent(generation, table)]
    else
      table == was && reports == sent
  }

  lemma ProgressNext(infos: map<Uid, RegInfo>, todo: set<Uid>, generation: int, before: Table, sentBefore: seq<Sent>,
                     was: Table, sent: seq<Sent>, podId: Uid, table: Table, reports: seq<Sent>)
    requires podId in todo && podId in infos && Progress(infos, todo, generation, before, sentBefore, was, sent)
    requires SettledTables(infos[podId], podId, generation, was, sent, table, reports)
    ensures Progress(infos, todo - {podId}, generation, before, sentBefore, table, reports)
  {
    if Ready(infos[podId]) {
      ProgressDue(infos, todo, generation, before, sentBefore, was, sent, podId, table);
    } else {
      ProgressIdle(infos, todo, generation, before, sentBefore, was, sent, podId);
    }
  }

  // ---------------------------------------------------------------- walking a list

  /** The order in which the events of a list are walked: each once. */
  ghost predicate Walks(order: seq<(DevId, Uid)>, events: Events) {
    NoRepeats(order) && forall k :: k in order <==> k in events
  }

  /** The devices on which a list has the pod, in the order in which the list is walked. */
  function DevsFor(order: seq<(DevId, Uid)>, devices: set<DevId>, events: Events, uid: Uid): seq<DevId> {
    if order == [] then []
    else
      var last := |order| - 1;
      DevsFor(order[..last], devices, events, uid)
      + if order[last].1 == uid && Kept(devices, events, order[last]) then [order[last].0] else []
  }

  lemma DevsForNext(order: seq<(DevId, Uid)>, devices: set<DevId>, events: Events, n: nat)
    requires n < |order|
    ensures forall uid :: DevsFor(order[..n + 1], devices, events, uid) ==
                          if order[n].1 == uid && Kept(devices, events, order[n])
                          then DevsFor(order[..n], devices, events, uid) + [order[n].0]
                          else DevsFor(order[..n], devices, events, uid)
  {
    assert order[..n + 1][..n] == order[..n];
  }

  /** What is known of the registrations while a list is being entered. */
  ghost predicate Walked(visited: set<Uid>, infos: map<Uid, RegInfo>, was: map<Uid, RegInfo>, devices: set<DevId>,
                         events: Events, walked: seq<(DevId, Uid)>)
  {
    forall uid :: WalkedFor(visited, infos, was, devices, events, walked, uid)
  }

  predicate WalkedFor(visited: set<Uid>, infos: map<Uid, RegInfo>, was: map<Uid, RegInfo>, devices: set<DevId>,
                      events: Events, walked: seq<(DevId, Uid)>, uid: Uid)
  {
    var devs := DevsFor(walked, devices, events, uid);
    (uid in visited <==> devs != []) && Entry(infos, uid) == WithDevs(Entry(was, uid), devs)
  }

  ghost predicate DevAdded(infos: map<Uid, RegInfo>, was: map<Uid, RegInfo>, podId: Uid, diskId: DevId) {
    forall uid :: Entry(infos, uid) == if uid == podId then WithDevs(Entry(was, uid), [diskId]) else Entry(was, uid)
  }

  lemma WalkedSkip(visited: set<Uid>, infos: map<Uid, RegInfo>, was: map<Uid, RegInfo>, devices: set<DevId>,
                   events: Events, order: seq<(DevId, Uid)>, n: nat)
    requires n < |order| && Walked(visited, infos, was, devices, events, order[..n]) && !Kept(devices, events, order[n])
    ensures Walked(visited, infos, was, devices, events, order[..n + 1])
  {
    DevsForNext(order, devices, events, n);
    var walked, before := order[..n + 1], order[..n];
    forall uid
      ensures WalkedFor(visited, infos, was, devices, events, walked, uid)
    {
      assert WalkedFor(visited, infos, was, devices, events, before, uid);
    }
  }

  lemma WalkedNext(visited: set<Uid>, infos: map<Uid, RegInfo>, was: map<Uid, RegInfo>, devices: set<DevId>,
                   events: Events, order: seq<(DevId, Uid)>, n: nat, next: map<Uid, RegInfo>)
    requires n < |order| && Walked(visited, infos, was, devices, events, order[..n]) && Kept(devices, events, order[n])
    requires DevAdded(next, infos, order[n].1, order[n].0)
    ensures Walked(visited + {order[n].1}, next, was, devices, events, order[..n + 1])
  {
    var seen, walked := visited + {order[n].1}, order[..n + 1];
    forall uid
      ensures WalkedFor(seen, next, was, devices, events, walked, uid)
    {
      WalkedOne(visited, infos, was, devices, events, order, n, next, uid);
    }
  }

  lemma WalkedOne(visited: set<Uid>, infos: map<Uid, RegInfo>, was: map<Uid, RegInfo>, devices: set<DevId>,
                  events: Events, order: seq<(DevId, Uid)>, n: nat, next: map<Uid, RegInfo>, uid: Uid)
    requires n < |order| && Walked(visited, infos, was, devices, events, order[..n]) && Kept(devices, events, order[n])
    requires DevAdded(next, infos, order[n].1, order[n].0)
    ensures WalkedFor(visited + {order[n].1}, next, was, devices, events, order[..n + 1], uid)
  {
    DevsForNext(order, devices, events, n);
    assert WalkedFor(visited, infos, was, devices, events, order[..n], uid);
    if uid == order[n].1 {
      OneMoreDev(Entry(was, uid), DevsFor(order[..n], devices, events, uid), order[n].0);
    }
  }

  /** The tables while a list is being entered: the events in `walked` are. */
  ghost predicate Entered(now: Table, was: Table, devices: set<DevId>, events: Events, walked: seq<(DevId, Uid)>) {
    && (forall s :: s in now <==> s in was || (Enters(devices, events, s) && (s.dev, s.uid) in walked))
    && (forall s <- now ::
          now[s] == if Enters(devices, events, s) && (s.dev, s.uid) in walked then events[(s.dev, s.uid)] else was[s])
  }

  lemma EnteredNext(now: Table, was: Table, devices: set<DevId>, events: Events, order: seq<(DevId, Uid)>, n: nat)
    requires n < |order| && order[n] in events && Entered(now, was, devices, events, order[..n])
    ensures var k := order[n];
            Entered(if Kept(devices, events, k) then now[Slot(k.0, events[k].group, k.1) := events[k]] else now,
                    was, devices, events, order[..n + 1])
  {
    var k := order[n];
    assert order[..n + 1] == order[..n] + [k];
    forall s: Slot
      ensures Enters(devices, events, s) && (s.dev, s.uid) == k <==>
              Kept(devices, events, k) && s == Slot(k.0, events[k].group, k.1)
    {
      assert k == (k.0, k.1);
    }
  }

  lemma AllEntered(now: Table, was: Table, devices: set<DevId>, events: Events, order: seq<(DevId, Uid)>)
    requires Walks(order, events) && Entered(now, was, devices, events, order)
    ensures Pruned(now, Visited(devices, events)) == AfterCr(was, devices, events)
  {
    forall s | Enters(devices, events, s)
      ensures (s.dev, s.uid) in order
    {
      assert (s.dev, s.uid) in events;
    }
    AfterCrAt(was, devices, events, now);
  }

  lemma AllVisited(visited: set<Uid>, infos: map<Uid, RegInfo>, was: map<Uid, RegInfo>, devices: set<DevId>,
                   events: Events, order: seq<(DevId, Uid)>)
    requires Walks(order, events) && Walked(visited, infos, was, devices, events, order)
    ensures visited == Visited(devices, events)
  {
    forall uid
      ensures uid in Visited(devices, events) <==> uid in visited
    {
      DevsForIff(order, devices, events, uid);
      assert WalkedFor(visited, infos, was, devices, events, order, uid);
    }
  }

  lemma {:induction false} DevsForIff(order: seq<(DevId, Uid)>, devices: set<DevId>, events: Events, uid: Uid)
    ensures DevsFor(order, devices, events, uid) != [] <==>
            exists k :: k in order && k.1 == uid && Kept(devices, events, k)
  {
    if order != [] {
      var last := |order| - 1;
      DevsForIff(order[..last], devices, events, uid);
      assert order == order[..last] + [order[last]];
      assert forall k :: k in order <==> k in order[..last] || k == order[last];
    }
  }

  // ---------------------------------------------------------------- the engine over a whole run

  /** What the engine handles: runtime events, or a list with the order in which it is walked. */
  datatype Event = Runtime(news: map<Uid, NriEvent>) | List(generation: int, events: Events, order: seq<(DevId, Uid)>)

  datatype Config = Config(devices: set<DevId>, nsWhitelist: set<string>)

  /** Pods of system namespaces are left alone. */
  function Heard(c: Config, news: map<Uid, NriEvent>, uid: Uid): Happening {
    if uid in news && news[uid].namespace !in c.nsWhitelist then Nri(PodPrefix + news[uid].path, news[uid].ops)
    else Idle
  }

  /** What an event means for one pod. */
  function Seen(c: Config, e: Event, uid: Uid): Happening {
    match e
    case Runtime(news) => Heard(c, news, uid)
    case List(_, events, order) => Cr(DevsFor(order, c.devices, events, uid))
  }

  function HistoryOf(c: Config, es: seq<Event>, uid: Uid): seq<Happening> {
    seq(|es|, i requires 0 <= i < |es| => Seen(c, es[i], uid))
  }

  /** The tables before anything is unregistered. */
  function Entering(c: Config, table: Table, e: Event): Table {
    match e
    case Runtime(_) => table
    case List(_, events, _) => AfterCr(table, c.devices, events)
  }

  function TableAfter(c: Config, es: seq<Event>): Table {
    if es == [] then map[]
    else
      var before, e := es[..|es| - 1], es[|es| - 1];
      var table := Entering(c, TableAfter(c, before), e);
      map s | s in table && !UnregistersAt(After(HistoryOf(c, before, s.uid)).entry, Seen(c, e, s.uid)) :: table[s]
  }

  /** One event: every pod makes its step. */
  ghost predicate PodsMoved(c: Config, e: Event, infos: map<Uid, RegInfo>, log: seq<(Uid, Call)>,
                            infosNow: map<Uid, RegInfo>, logNow: seq<(Uid, Call)>)
  {
    forall uid :: StateOf(infosNow, logNow, uid) == StepPod(StateOf(infos, log, uid), Seen(c, e, uid))
  }

  /** The pods that are unregistered leave the tables. */
  ghost predicate TableMoved(c: Config, e: Event, infos: map<Uid, RegInfo>, table: Table, now: Table) {
    && (forall s :: s in now <==> s in table && !UnregistersAt(Entry(infos, s.uid), Seen(c, e, s.uid)))
    && Part(now, table)
  }

  ghost predicate AllAsked(c: Config, e: Event, infos: map<Uid, RegInfo>, asked: map<Uid, RegInfo>) {
    forall uid :: Entry(asked, uid) == Asked(Entry(infos, uid), Seen(c, e, uid))
  }

  lemma SettlingMovesPods(c: Config, e: Event, infos: map<Uid, RegInfo>, log: seq<(Uid, Call)>,
                          asked: map<Uid, RegInfo>, infosNow: map<Uid, RegInfo>, logNow: seq<(Uid, Call)>)
    requires AllAsked(c, e, infos, asked) && SettledBut({}, asked, log, infosNow, logNow)
    ensures PodsMoved(c, e, infos, log, infosNow, logNow)
  {
    forall uid
      ensures StateOf(infosNow, logNow, uid) == StepPod(StateOf(infos, log, uid), Seen(c, e, uid))
    {
      assert Entry(asked, uid) == Asked(Entry(infos, uid), Seen(c, e, uid));
    }
  }

  lemma SettlingMovesTable(c: Config, e: Event, infos: map<Uid, RegInfo>, asked: map<Uid, RegInfo>, table: Table)
    requires AllAsked(c, e, infos, asked)
    ensures TableMoved(c, e, infos, table, Without(table, Stopped(asked)))
  {
    forall uid
      ensures uid in Stopped(asked) <==> UnregistersAt(Entry(infos, uid), Seen(c, e, uid))
    {
      assert Entry(asked, uid) == Asked(Entry(infos, uid), Seen(c, e, uid));
    }
  }

  /** What the engine holds is what its history makes of each pod and of the tables. */
  ghost predicate Follows(c: Config, es: seq<Event>, infos: map<Uid, RegInfo>, log: seq<(Uid, Call)>, table: Table) {
    PodsFollow(c, es, infos, log) && table == TableAfter(c, es)
  }

  ghost predicate PodsFollow(c: Config, es: seq<Event>, infos: map<Uid, RegInfo>, log: seq<(Uid, Call)>) {
    forall uid :: StateOf(infos, log, uid) == After(HistoryOf(c, es, uid))
  }

  lemma HistoryNext(c: Config, es: seq<Event>, e: Event, uid: Uid)
    ensures HistoryOf(c, es + [e], uid) == HistoryOf(c, es, uid) + [Seen(c, e, uid)]
    ensures After(HistoryOf(c, es + [e], uid)) == StepPod(After(HistoryOf(c, es, uid)), Seen(c, e, uid))
  {
    var hs, h := HistoryOf(c, es, uid), Seen(c, e, uid);
    assert HistoryOf(c, es + [e], uid) == hs + [h];
    assert (hs + [h])[..|hs|] == hs;
  }

  lemma PodsFollowNext(c: Config, es: seq<Event>, e: Event, infos: map<Uid, RegInfo>, log: seq<(Uid, Call)>,
                       infosNow: map<Uid, RegInfo>, logNow: seq<(Uid, Call)>)
    requires PodsFollow(c, es, infos, log) && PodsMoved(c, e, infos, log, infosNow, logNow)
    ensures PodsFollow(c, es + [e], infosNow, logNow)
  {
    forall uid
      ensures StateOf(infosNow, logNow, uid) == After(HistoryOf(c, es + [e], uid))
    {
      HistoryNext(c, es, e, uid);
      assert StateOf(infos, log, uid) == After(HistoryOf(c, es, uid));
    }
  }

  lemma TableFollowsNext(c: Config, es: seq<Event>, e: Event, infos: map<Uid, RegInfo>, log: seq<(Uid, Call)>,
                         now: Table)
    requires PodsFollow(c, es, infos, log) && TableMoved(c, e, infos, Entering(c, TableAfter(c, es), e), now)
    ensures now == TableAfter(c, es + [e])
  {
    TableNext(c, es, e);
    var next := TableAfter(c, es + [e]);
    forall s: Slot
      ensures s in now <==> s in next
      ensures s in now && s in next ==> now[s] == next[s]
    {
      assert StateOf(infos, log, s.uid) == After(HistoryOf(c, es, s.uid));
    }
  }

  lemma FollowsNext(c: Config, es: seq<Event>, e: Event, infos: map<Uid, RegInfo>, log: seq<(Uid, Call)>, table: Table,
                    asked: map<Uid, RegInfo>, infosNow: map<Uid, RegInfo>, logNow: seq<(Uid, Call)>, tableNow: Table)
    requires Follows(c, es, infos, log, table)
    requires AllAsked(c, e, infos, asked) && SettledBut({}, asked, log, infosNow, logNow)
    requires tableNow == Without(Entering(c, table, e), Stopped(asked))
    ensures Follows(c, es + [e], infosNow, logNow, tableNow)
  {
    SettlingMovesPods(c, e, infos, log, asked, infosNow, logNow);
    SettlingMovesTable(c, e, infos, asked, Entering(c, table, e));
    PodsFollowNext(c, es, e, infos, log, infosNow, logNow);
    TableFollowsNext(c, es, e, infos, log, tableNow);
  }

  lemma TableNext(c: Config, es: seq<Event>, e: Event)
    ensures var table, next := Entering(c, TableAfter(c, es), e), TableAfter(c, es + [e]);
            && (forall s :: s in next <==>
                  s in table && !UnregistersAt(After(HistoryOf(c, es, s.uid)).entry, Seen(c, e, s.uid)))
            && Part(next, table)
  {
    assert (es + [e])[..|es|] == es;
  }

  /** Event `j` is the last list. */
  predicate LastList(es: seq<Event>, j: nat) {
    j < |es| && es[j].List? && forall n | j < n < |es| :: es[n].Runtime?
  }

  /** The pod is unregistered by event `n`. */
  predicate UnregisteredBy(c: Config, es: seq<Event>, n: nat, uid: Uid)
    requires n < |es|
  {
    UnregistersAt(After(HistoryOf(c, es[..n], uid)).entry, Seen(c, es[n], uid))
  }

  /** In every run, a slot that the last list enters is in the tables, with what that list says,
      exactly if the pod was not unregistered from that list on. */
  lemma {:induction false} TablesHold(c: Config, es: seq<Event>, j: nat, s: Slot)
    requires LastList(es, j) && Enters(c.devices, es[j].events, s)
    ensures s in TableAfter(c, es) <==> !exists n | j <= n < |es| :: UnregisteredBy(c, es, n, s.uid)
    ensures s in TableAfter(c, es) ==> TableAfter(c, es)[s] == es[j].events[(s.dev, s.uid)]
  {
    var last := |es| - 1;
    var before, e := es[..last], es[last];
    assert es == before + [e];
    TableNext(c, before, e);
    assert UnregisteredBy(c, es, last, s.uid) <==>
           UnregistersAt(After(HistoryOf(c, before, s.uid)).entry, Seen(c, e, s.uid));
    if j == last {
      WrittenAt(c.devices, e.events, s);
    } else {
      TablesHold(c, before, j, s);
      forall n | j <= n < last
        ensures UnregisteredBy(c, es, n, s.uid) <==> UnregisteredBy(c, before, n, s.uid)
      {
        assert es[..n] == before[..n];
      }
    }
  }

  /** By event `n` the runtime has stopped the pod, and a list before `j` lacked it while the engine
      had an entry of it; nothing was unregistered in between. */
  predicate StaleStop(c: Config, es: seq<Event>, j: nat, uid: Uid, n: nat)
    requires j <= n < |es|
  {
    var hs := HistoryOf(c, es[..n], uid);
    (exists i | 0 <= i < j :: i < |hs| && Since(Lacked, hs, i)) && StandsAt(Ended, hs, Seen(c, es[n], uid))
  }

  /** Exactly when a pod that the last list has is missing from the tables, and so from the reports. */
  lemma ListedPodMissingIff(c: Config, es: seq<Event>, j: nat, s: Slot)
    requires LastList(es, j) && Enters(c.devices, es[j].events, s) && Walks(es[j].order, es[j].events)
    ensures s !in TableAfter(c, es) <==> exists n | j <= n < |es| :: StaleStop(c, es, j, s.uid, n)
  {
    TablesHold(c, es, j, s);
    forall n | j <= n < |es|
      ensures UnregisteredBy(c, es, n, s.uid) <==> StaleStop(c, es, j, s.uid, n)
    {
      UnregisteredByIff(c, es, j, s, n);
    }
    if n :| j <= n < |es| && StaleStop(c, es, j, s.uid, n) {
      assert UnregisteredBy(c, es, n, s.uid);
    }
  }

  lemma UnregisteredByIff(c: Config, es: seq<Event>, j: nat, s: Slot, n: nat)
    requires LastList(es, j) && Enters(c.devices, es[j].events, s) && Walks(es[j].order, es[j].events) && j <= n < |es|
    ensures UnregisteredBy(c, es, n, s.uid) <==> StaleStop(c, es, j, s.uid, n)
  {
    var hs, h := HistoryOf(c, es[..n], s.uid), Seen(c, es[n], s.uid);
    HistoryRooted(c, es[..n], s.uid);
    HistoryRooted(c, [es[n]], s.uid);
    assert HistoryOf(c, [es[n]], s.uid) == [h];
    LastListSeen(c, es, j, s, n);
    ListedUnregistersIff(hs, h, j);
  }

  lemma HistoryRooted(c: Config, es: seq<Event>, uid: Uid)
    ensures Rooted(HistoryOf(c, es, uid))
  {
  }

  lemma LastListSeen(c: Config, es: seq<Event>, j: nat, s: Slot, n: nat)
    requires LastList(es, j) && Enters(c.devices, es[j].events, s) && Walks(es[j].order, es[j].events) && j <= n < |es|
    ensures LastListHas(HistoryOf(c, es[..n], s.uid) + [Seen(c, es[n], s.uid)], j)
  {
    var k := (s.dev, s.uid);
    assert k in es[j].events;
    DevsForIff(es[j].order, c.devices, es[j].events, s.uid);
    var hs := HistoryOf(c, es[..n], s.uid) + [Seen(c, es[n], s.uid)];
    forall i | j <= i <= n
      ensures hs[i] == Seen(c, es[i], s.uid)
    {
    }
  }

  /** The path of the last runtime event about the pod that is not of a system namespace. */
  function LastPath(c: Config, es: seq<Event>, uid: Uid): Option<string> {
    if es == [] then None
    else
      var e := es[|es| - 1];
      if e.Runtime? && uid in e.news && e.news[uid].namespace !in c.nsWhitelist then Some(e.news[uid].path)
      else LastPath(c, es[..|es| - 1], uid)
  }

  lemma {:induction false} LastPathSeen(c: Config, es: seq<Event>, uid: Uid)
    ensures LastCgroup(HistoryOf(c, es, uid)) ==
            match LastPath(c, es, uid) case None => None case Some(path) => Some("/sys/fs/cgroup" + path)
  {
    if es != [] {
      var last := |es| - 1;
      LastPathSeen(c, es[..last], uid);
      assert HistoryOf(c, es, uid)[..last] == HistoryOf(c, es[..last], uid);
    }
  }

  /** A pod is registered under the path of its last runtime event outside system namespaces, below the
      mount point of cgroups. */
  lemma RegisteredUnderPath(c: Config, es: seq<Event>, e: Event, uid: Uid, n: nat)
    requires var now, was := After(HistoryOf(c, es + [e], uid)).calls, After(HistoryOf(c, es, uid)).calls;
             n < |now| && |was| <= n && now[n].Register?
    ensures LastPath(c, es + [e], uid).Some?
    ensures After(HistoryOf(c, es + [e], uid)).calls[n].cgroup == "/sys/fs/cgroup" + LastPath(c, es + [e], uid).value
  {
    HistoryNext(c, es, e, uid);
    LastPathSeen(c, es + [e], uid);
    RegisteredWith(HistoryOf(c, es, uid), Seen(c, e, uid), n);
  }

  /** Nothing is ever called about a pod whose runtime events are all of system namespaces. */
  lemma SystemPodsLeftAlone(c: Config, es: seq<Event>, uid: Uid)
    requires forall i | 0 <= i < |es| && es[i].Runtime? && uid in es[i].news ::
               es[i].news[uid].namespace in c.nsWhitelist
    ensures After(HistoryOf(c, es, uid)).calls == []
  {
    UnheardNeverCalled(HistoryOf(c, es, uid));
  }

  class DiskEngine {
    const devices: set<DevId>
    const nsWhitelist: set<string>
    var observedGeneration: int
    var table: Table
    var podRegInfos: map<Uid, RegInfo>
    var log: seq<(Uid, Call)>
    var reports: seq<Sent>
    /** Everything the engine has handled. */
    ghost var history: seq<Event>

    ghost predicate Valid()
      reads this
    {
      Follows(Config(devices, nsWhitelist), history, podRegInfos, log, table)
    }

    constructor (devices: set<DevId>, nsWhitelist: set<string>)
      ensures this.devices == devices && this.nsWhitelist == nsWhitelist
      ensures Valid() && history == [] && observedGeneration == 0 && reports == []
    {
      this.devices, this.nsWhitelist := devices, nsWhitelist;
      table, observedGeneration, podRegInfos, log, reports, history := map[], 0, map[], [], [], [];
    }

    /** Unregistered pods leave the tables, and a report follows, under the generation of the last list. */
    method RegisterPod()
      modifies this
      ensures SettledBut({}, old(podRegInfos), old(log), podRegInfos, log)
      ensures observedGeneration == old(observedGeneration) && history == old(history)
      ensures table == Without(old(table), Stopped(old(podRegInfos)))
      ensures Reported(old(reports), reports, |Due(old(podRegInfos))|, observedGeneration, old(table), table)
    {
      var todo := podRegInfos.Keys;
      NoProgress(podRegInfos, observedGeneration, table, reports);
      while todo != {}
        invariant todo <= old(podRegInfos).Keys
        invariant SettledBut(todo, old(podRegInfos), old(log), podRegInfos, log)
        invariant observedGeneration == old(observedGeneration) && history == old(history)
        invariant Progress(old(podRegInfos), todo, observedGeneration, old(table), old(reports), table, reports)
      {
        var podId :| podId in todo;
        assert StateOf(podRegInfos, log, podId) == StateOf(old(podRegInfos), old(log), podId);
        ghost var infosNow, logNow, was, sent := podRegInfos, log, table, reports;
        Settle(podId);
        OneMoreSettled(todo, podId, old(podRegInfos), old(log), infosNow, logNow, podRegInfos, log);
        ProgressNext(old(podRegInfos), todo, observedGeneration, old(table), old(reports),
                     was, sent, podId, table, reports);
        todo := todo - {podId};
      }
      AllProgress(old(podRegInfos), observedGeneration, old(table), old(reports), table, reports);
    }

    /** The body of RegisterPod's loop. */
    method Settle(podId: Uid)
      requires podId in podRegInfos
      modifies this
      ensures OneSettled(podId, old(podRegInfos), old(log), podRegInfos, log)
      ensures observedGeneration == old(observedGeneration) && history == old(history)
      ensures SettledTables(old(podRegInfos[podId]), podId, observedGeneration, old(table), old(reports),
                            table, reports)
    {
      var info := podRegInfos[podId];
      if info.cgroup == "" || info.devs == [] {
        return;
      }
      var operation := info.nri * info.cr;
      if operation == {} {
        return;
      }
      if StopPod in operation {
        podRegInfos := podRegInfos - {podId};
      } else {
        podRegInfos := podRegInfos[podId := info.(nri := info.nri - operation, cr := info.cr - operation)];
      }
      var calls: seq<Call> := [];
      if RunPod in operation {
        calls := calls + [Register(info.cgroup, info.devs)];
      }
      if StopPod in operation {
        calls := calls + [Unregister];
        table := Without(table, {podId});
      }
      assert calls == CallsFor(info);
      SettledNow(podId, old(podRegInfos), old(log));
      WithoutNone(old(table));
      log := log + Tagged(podId, calls);
      reports := reports + [Sent(observedGeneration, table)];
    }

    method ProcessNriData(news: map<Uid, NriEvent>)
      requires Valid()
      modifies this
      ensures Valid() && history == old(history) + [Runtime(news)]
      ensures observedGeneration == old(observedGeneration)
      ensures Reported(old(reports), reports, |reports| - |old(reports)|, observedGeneration, old(table), table)
    {
      ghost var c, e := Config(devices, nsWhitelist), Runtime(news);
      Notice(news);
      ghost var asked := podRegInfos;
      RegisterPod();
      FollowsNext(c, history, e, old(podRegInfos), old(log), old(table), asked, podRegInfos, log, table);
      history := history + [e];
    }

    /** The loop of ProcessNriData. */
    method Notice(news: map<Uid, NriEvent>)
      modifies `podRegInfos
      ensures AllAsked(Config(devices, nsWhitelist), Runtime(news), old(podRegInfos), podRegInfos)
    {
      var todo := news.Keys;
      while todo != {}
        invariant todo <= news.Keys
        invariant forall uid :: Entry(podRegInfos, uid) ==
                                if uid in todo then Entry(old(podRegInfos), uid)
                                else Asked(Entry(old(podRegInfos), uid), Heard(Config(devices, nsWhitelist), news, uid))
      {
        var podId :| podId in todo;
        todo := todo - {podId};
        if news[podId].namespace in nsWhitelist {
          continue;
        }
        var cgroup := PodPrefix + news[podId].path;
        podRegInfos := podRegInfos[podId := Noticed(Entry(podRegInfos, podId), cgroup, news[podId].ops)];
      }
    }

    method DeleteOutdatePod(visited: set<Uid>)
      modifies `table
      ensures table == Pruned(old(table), visited)
    {
      var todo := table.Keys;
      while todo != {}
        invariant todo <= old(table).Keys
        invariant table == map s | s in old(table) && (s in todo || s.uid in visited) :: old(table)[s]
      {
        var s :| s in todo;
        todo := todo - {s};
        if s.uid !in visited {
          table := table - {s};
        }
      }
    }

    /** Takes a list, walked in `order`: the tables are those of the list, less the pods whose
        unregistering it completes. */
    method ProcessDiskCrData(generation: int, events: Events, order: seq<(DevId, Uid)>)
      requires Valid() && Walks(order, events)
      modifies this
      ensures Valid() && history == old(history) + [List(generation, events, order)]
      ensures observedGeneration == generation
      ensures Reported(old(reports), reports, |reports| - |old(reports)|, generation,
                       AfterCr(old(table), devices, events), table)
    {
      ghost var c, e := Config(devices, nsWhitelist), List(generation, events, order);
      observedGeneration := generation;
      Take(generation, events, order);
      ghost var asked := podRegInfos;
      RegisterPod();
      FollowsNext(c, history, e, old(podRegInfos), old(log), old(table), asked, podRegInfos, log, table);
      history := history + [e];
    }

    /** ProcessDiskCrData before RegisterPod. */
    method Take(ghost generation: int, events: Events, order: seq<(DevId, Uid)>)
      requires Walks(order, events)
      modifies `table, `podRegInfos
      ensures table == AfterCr(old(table), devices, events)
      ensures AllAsked(Config(devices, nsWhitelist), List(generation, events, order), old(podRegInfos), podRegInfos)
    {
      var visited := Enter(events, order);
      ghost var infos := podRegInfos;
      DeleteOutdatePod(visited);
      AskAll(visited);
      forall uid
        ensures Entry(podRegInfos, uid) == Asked(Entry(old(podRegInfos), uid), Cr(DevsFor(order, devices, events, uid)))
      {
        assert WalkedFor(visited, infos, old(podRegInfos), devices, events, order, uid);
        ListedInTwo(Entry(old(podRegInfos), uid), DevsFor(order, devices, events, uid));
      }
    }

    /** The first loop of ProcessDiskCrData. */
    method Enter(events: Events, order: seq<(DevId, Uid)>) returns (visited: set<Uid>)
      requires Walks(order, events)
      modifies `table, `podRegInfos
      ensures visited == Visited(devices, events)
      ensures Pruned(table, visited) == AfterCr(old(table), devices, events)
      ensures Walked(visited, podRegInfos, old(podRegInfos), devices, events, order)
    {
      visited := {};
      for n := 0 to |order|
        invariant Entered(table, old(table), devices, events, order[..n])
        invariant Walked(visited, podRegInfos, old(podRegInfos), devices, events, order[..n])
      {
        var k := order[n];
        EnteredNext(table, old(table), devices, events, order, n);
        if k.0 !in devices || events[k].name == "" {
          WalkedSkip(visited, podRegInfos, old(podRegInfos), devices, events, order, n);
          continue;
        }
        table := table[Slot(k.0, events[k].group, k.1) := events[k]];
        ghost var infos := podRegInfos;
        AddDev(k.1, k.0);
        WalkedNext(visited, infos, old(podRegInfos), devices, events, order, n, podRegInfos);
        visited := visited + {k.1};
      }
      assert order[..|order|] == order;
      AllVisited(visited, podRegInfos, old(podRegInfos), devices, events, order);
      AllEntered(table, old(table), devices, events, order);
    }

    method AddDev(podId: Uid, diskId: DevId)
      modifies `podRegInfos
      ensures DevAdded(podRegInfos, old(podRegInfos), podId, diskId)
    {
      if podId !in podRegInfos {
        podRegInfos := podRegInfos[podId := RegInfo("", {}, {}, [diskId])];
      } else {
        var info := podRegInfos[podId];
        podRegInfos := podRegInfos[podId := info.(devs := info.devs + [diskId])];
      }
    }

    /** The last loop of ProcessDiskCrData: what the list asks of each pod the engine knows. */
    method AskAll(visited: set<Uid>)
      modifies `podRegInfos
      ensures podRegInfos == map u | u in old(podRegInfos) ::
                               var i := old(podRegInfos)[u];
                               i.(cr := i.cr + {if u in visited then RunPod else StopPod})
    {
      var todo := podRegInfos.Keys;
      while todo != {}
        invariant todo <= old(podRegInfos).Keys == podRegInfos.Keys
        invariant forall u <- podRegInfos :: podRegInfos[u] ==
                    if u in todo then old(podRegInfos)[u]
                    else old(podRegInfos)[u].(cr := old(podRegInfos)[u].cr + {if u in visited then RunPod else StopPod})
      {
        var podId :| podId in todo;
        todo := todo - {podId};
        var info := podRegInfos[podId];
        var bit := if podId !in visited then StopPod else RunPod;
        podRegInfos := podRegInfos[podId := info.(cr := info.cr + {bit})];
      }
    }
  }
}
