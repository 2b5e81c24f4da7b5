/** The generation protocol of one node: scheduler, aggregator, node agent and back
    (pkg/scheduler/resource/eventhandler.go and context.go, pkg/aggregator/server.go and client.go,
    pkg/agent/aggregator.go, pkg/agent/disk/engine.go, pkg/scheduler/blockio/handle.go).

    Every message ever sent stays in its set, so it may be delayed, overtaken, repeated or lost.
    An engine of the agent takes a pod out of its tables when it unregisters it, which may happen at
    any time here; `Engine` says when it does.  What the API server answers when a pod's annotation is
    read is arbitrary.  Numbers are carried symbolically: by the pods that the agent counted when it
    computed them. */
module Protocol {
  import opened IoTypes
  import opened PodLists

  datatype Report = Report(kind: IoType, generation: int, counted: Pods)

  /** Allocatable bandwidth of one I/O type: still the initial -1, or computed by the agent. */
  datatype Numbers = Unset | From(counted: Pods)

  datatype Status = Status(observed: int, numbers: map<IoType, Numbers>)

  datatype State = State(
    // scheduler
    generation: int,
    pods: Pods,
    ga: map<IoType, Numbers>,
    specs: set<Roster>,
    // aggregator
    latest: Roster,
    lists: set<PodList>,
    sent: set<PodList>,
    accepted: set<Report>,
    status: Status,
    statuses: set<Status>,
    // agent
    store: Pods,
    inbox: set<PodData>,
    observed: map<IoType, int>,
    view: map<IoType, Pods>,
    reports: set<Report>,
    // auxiliary: the ledger of every generation so far
    ledgers: seq<Pods>)

  datatype Op =
    | Reserve(uid: Uid, req: PodRequest)
    | Release(uid: Uid)
    | TakeSpec(spec: Roster, answers: Answers)
    | Send(list: PodList)
    | Refuse(report: Report, answers: Answers)
    | Fetch(answers: Answers)
    | Receive(list: PodList)
    | Process(kind: IoType, data: PodData)
    | Unregister(kind: IoType, uid: Uid)
    | Compute(kind: IoType)
    | Accept(report: Report)
    | Apply(report: Report)
    | Publish
    | Observe(before: Status, after: Status)

  function Changed(s: State, pods: Pods): State {
    s.(generation := s.generation + 1, pods := pods, specs := s.specs + {Roster(s.generation + 1, pods.Keys)},
       ledgers := s.ledgers + [pods])
  }

  /** UpdateNodeIOStatus and UpdateCacheNodeStatus of the scheduler: the guard on the generation. */
  predicate Admits(s: State, before: Status, after: Status) {
    before != after && |before.numbers| == |after.numbers| && after.observed == s.generation
  }

  predicate Overwrites(s: State, op: Op, kind: IoType) {
    op.Observe? && Admits(s, op.before, op.after) && kind in op.after.numbers && op.after.numbers[kind].From?
  }

  predicate Enabled(s: State, op: Op) {
    match op
    case Reserve(_, _) => true
    case Release(_) => true
    case TakeSpec(spec, _) => spec in s.specs
    case Send(list) => list in s.lists && list.generation >= s.latest.generation
    case Refuse(report, _) => report in s.reports && report.generation < s.latest.generation
    case Fetch(_) => true
    case Receive(list) => list in s.sent
    case Process(kind, data) => data in s.inbox && kind in s.observed
    case Unregister(kind, _) => kind in s.observed && kind in s.view
    case Compute(kind) => kind in s.observed && kind in s.view
    case Accept(report) => report in s.reports && report.generation >= s.latest.generation
    case Apply(report) => report in s.accepted
    case Publish => true
    case Observe(before, after) => before in s.statuses && after in s.statuses
  }

  function Next(s: State, op: Op): State
    requires Enabled(s, op)
  {
    match op
    case Reserve(uid, req) => Changed(s, s.pods[uid := req])
    case Release(uid) => Changed(s, s.pods - {uid})
    case TakeSpec(spec, answers) =>
      s.(latest := spec, lists := s.lists + {ListOf(spec, spec.pods - s.latest.pods, answers)})
    case Send(list) => s.(sent := s.sent + {list})
    case Refuse(_, answers) => s.(lists := s.lists + {ListOf(s.latest, s.latest.pods, answers)})
    case Fetch(answers) => s.(sent := s.sent + {ListOf(s.latest, s.latest.pods, answers)})
    case Receive(list) => s.(store := Remembered(s.store, list), inbox := s.inbox + {Expanded(s.store, list)})
    case Process(kind, data) =>
      s.(observed := s.observed[kind := data.generation], view := s.view[kind := data.pods])
    case Unregister(kind, uid) => s.(view := s.view[kind := s.view[kind] - {uid}])
    case Compute(kind) => s.(reports := s.reports + {Report(kind, s.observed[kind], s.view[kind])})
    case Accept(report) => s.(accepted := s.accepted + {report})
    case Apply(report) =>
      s.(status := Status(report.generation,
                          if report.kind in s.status.numbers then s.status.numbers[report.kind := From(report.counted)]
                          else s.status.numbers))
    case Publish => s.(statuses := s.statuses + {s.status})
    case Observe(before, after) =>
      if Admits(s, before, after) then
        s.(ga := s.ga + map k | k in after.numbers && after.numbers[k].From? :: after.numbers[k])
      else s
  }

  /** A new node: nothing reserved, and the status resource filled with -1 for each I/O type. */
  predicate Initial(s: State, kinds: set<IoType>) {
    && s.generation == 0 && s.pods == map[] && s.ledgers == [map[]]
    && s.specs == {Roster(0, {})} && s.latest == Roster(0, {})
    && s.lists == {} && s.sent == {} && s.accepted == {} && s.reports == {} && s.inbox == {}
    && s.status == Status(0, map k | k in kinds :: Unset) && s.statuses == {s.status}
    && s.store == map[] && s.ga == map[]
    && s.observed == (map k | k in kinds :: 0) && s.view == (map k | k in kinds :: map[])
  }

  predicate StepAt(states: seq<State>, ops: seq<Op>, i: nat)
    requires i < |ops| < |states|
  {
    Enabled(states[i], ops[i]) && states[i + 1] == Next(states[i], ops[i])
  }

  /** A run: its states and the steps between them. */
  ghost predicate IsRun(kinds: set<IoType>, states: seq<State>, ops: seq<Op>) {
    && |states| == |ops| + 1
    && Initial(states[0], kinds)
    && forall i | 0 <= i < |ops| :: StepAt(states, ops, i)
  }

  // ---------------------------------------------------------------- what every message says

  /** `pods` were all reserved when the ledger had this generation. */
  predicate Known(s: State, generation: int, pods: set<Uid>) {
    0 <= generation < |s.ledgers| && pods <= s.ledgers[generation].Keys
  }

  predicate Exact(s: State, spec: Roster) {
    0 <= spec.generation < |s.ledgers| && spec.pods == s.ledgers[spec.generation].Keys
  }

  ghost predicate Honest(s: State) {
    && 0 <= s.generation == |s.ledgers| - 1 && s.ledgers[s.generation] == s.pods
    && (forall spec <- s.specs :: Exact(s, spec))
    && Exact(s, s.latest)
    && (forall list <- s.lists :: Known(s, list.generation, list.pods.Keys))
    && (forall list <- s.sent :: Known(s, list.generation, list.pods.Keys))
    && (forall data <- s.inbox :: Known(s, data.generation, data.pods.Keys))
    && (forall k <- s.observed :: k in s.view && Known(s, s.observed[k], s.view[k].Keys))
    && (forall report <- s.reports :: Known(s, report.generation, report.counted.Keys))
    && s.accepted <= s.reports
  }

  lemma KnownLater(s: State, r: State, generation: int, pods: set<Uid>)
    requires s.ledgers <= r.ledgers && Known(s, generation, pods)
    ensures Known(r, generation, pods)
  {
  }

  lemma ChangeHonest(s: State, pods: Pods)
    requires Honest(s)
    ensures Honest(Changed(s, pods))
  {
    var r := Changed(s, pods);
    assert s.ledgers <= r.ledgers;
    forall spec | spec in r.specs
      ensures Exact(r, spec)
    {
      assert spec in s.specs ==> Exact(s, spec);
    }
    forall k | k in r.observed
      ensures k in r.view && Known(r, r.observed[k], r.view[k].Keys)
    {
      KnownLater(s, r, s.observed[k], s.view[k].Keys);
    }
    forall report | report in r.reports
      ensures Known(r, report.generation, report.counted.Keys)
    {
      KnownLater(s, r, report.generation, report.counted.Keys);
    }
  }

  lemma ListHonest(s: State, spec: Roster, added: set<Uid>, answers: Answers)
    requires Exact(s, spec)
    ensures var list := ListOf(spec, added, answers); Known(s, list.generation, list.pods.Keys)
  {
    assert ListOf(spec, added, answers).pods.Keys <= spec.pods;
  }

  lemma ReceiveHonest(s: State, list: PodList)
    requires Honest(s) && Enabled(s, Receive(list))
    ensures Honest(Next(s, Receive(list)))
  {
    assert Known(s, list.generation, list.pods.Keys);
    assert Expanded(s.store, list).pods.Keys <= list.pods.Keys;
    var r := Next(s, Receive(list));
    forall data | data in r.inbox
      ensures Known(r, data.generation, data.pods.Keys)
    {
      assert data in s.inbox ==> Known(s, data.generation, data.pods.Keys);
    }
  }

  lemma ProcessHonest(s: State, kind: IoType, data: PodData)
    requires Honest(s) && Enabled(s, Process(kind, data))
    ensures Honest(Next(s, Process(kind, data)))
  {
    assert Known(s, data.generation, data.pods.Keys);
  }

  lemma UnregisterHonest(s: State, kind: IoType, uid: Uid)
    requires Honest(s) && Enabled(s, Unregister(kind, uid))
    ensures Honest(Next(s, Unregister(kind, uid)))
  {
    assert Known(s, s.observed[kind], s.view[kind].Keys);
    assert (s.view[kind] - {uid}).Keys <= s.view[kind].Keys;
  }

  lemma ComputeHonest(s: State, kind: IoType)
    requires Honest(s) && Enabled(s, Compute(kind))
    ensures Honest(Next(s, Compute(kind)))
  {
    assert Known(s, s.observed[kind], s.view[kind].Keys);
  }

  lemma TakeSpecHonest(s: State, spec: Roster, answers: Answers)
    requires Honest(s) && Enabled(s, TakeSpec(spec, answers))
    ensures Honest(Next(s, TakeSpec(spec, answers)))
  {
    assert Exact(s, spec);
    ListHonest(s, spec, spec.pods - s.latest.pods, answers);
  }

  lemma ResyncHonest(s: State, op: Op)
    requires Honest(s) && (op.Refuse? || op.Fetch?) && Enabled(s, op)
    ensures Honest(Next(s, op))
  {
    ListHonest(s, s.latest, s.latest.pods, op.answers);
  }

  lemma SendHonest(s: State, list: PodList)
    requires Honest(s) && Enabled(s, Send(list))
    ensures Honest(Next(s, Send(list)))
  {
  }

  lemma ReturnHonest(s: State, op: Op)
    requires Honest(s) && (op.Accept? || op.Apply? || op.Publish? || op.Observe?) && Enabled(s, op)
    ensures Honest(Next(s, op))
  {
    var r := Next(s, op);
    assert r == s.(accepted := r.accepted, status := r.status, statuses := r.statuses, ga := r.ga);
    assert r.accepted <= s.reports;
  }

  lemma StepHonest(s: State, op: Op)
    requires Honest(s) && Enabled(s, op)
    ensures Honest(Next(s, op))
  {
    match op
    case Reserve(uid, req) => ChangeHonest(s, s.pods[uid := req]);
    case Release(uid) => ChangeHonest(s, s.pods - {uid});
    case TakeSpec(spec, answers) => TakeSpecHonest(s, spec, answers);
    case Refuse(_, _) => ResyncHonest(s, op);
    case Fetch(_) => ResyncHonest(s, op);
    case Send(list) => SendHonest(s, list);
    case Receive(list) => ReceiveHonest(s, list);
    case Process(kind, data) => ProcessHonest(s, kind, data);
    case Unregister(kind, uid) => UnregisterHonest(s, kind, uid);
    case Compute(kind) => ComputeHonest(s, kind);
    case _ => ReturnHonest(s, op);
  }

  lemma InitialHonest(s: State, kinds: set<IoType>)
    requires Initial(s, kinds)
    ensures Honest(s)
  {
  }

  lemma HonestNext(kinds: set<IoType>, states: seq<State>, ops: seq<Op>, i: nat)
    requires IsRun(kinds, states, ops) && i < |ops| && Honest(states[i])
    ensures Honest(states[i + 1])
  {
    assert StepAt(states, ops, i);
    StepHonest(states[i], ops[i]);
  }

  lemma {:induction false} RunHonest(kinds: set<IoType>, states: seq<State>, ops: seq<Op>, n: nat)
    requires IsRun(kinds, states, ops) && n < |states|
    ensures Honest(states[n])
  {
    if n > 0 {
      RunHonest(kinds, states, ops, n - 1);
      HonestNext(kinds, states, ops, n - 1);
    } else {
      InitialHonest(states[0], kinds);
    }
  }

  // ---------------------------------------------------------------- where numbers come from

  /** Step `m` computed this report. */
  predicate ComputedAt(states: seq<State>, ops: seq<Op>, m: nat, report: Report)
    requires m < |ops| <= |states|
  {
    && ops[m] == Compute(report.kind)
    && report.kind in states[m].observed && states[m].observed[report.kind] == report.generation
    && report.kind in states[m].view && states[m].view[report.kind] == report.counted
  }

  lemma ReportsNext(kinds: set<IoType>, states: seq<State>, ops: seq<Op>, i: nat)
    requires IsRun(kinds, states, ops) && i < |ops|
    ensures forall report <- states[i + 1].reports :: report in states[i].reports || ComputedAt(states, ops, i, report)
  {
    assert StepAt(states, ops, i);
  }

  lemma {:induction false} ReportComputed(kinds: set<IoType>, states: seq<State>, ops: seq<Op>, n: nat, report: Report)
    returns (m: nat)
    requires IsRun(kinds, states, ops) && n < |states| && report in states[n].reports
    ensures m < n && ComputedAt(states, ops, m, report)
  {
    assert n > 0;
    ReportsNext(kinds, states, ops, n - 1);
    if report in states[n - 1].reports {
      m := ReportComputed(kinds, states, ops, n - 1, report);
    } else {
      m := n - 1;
    }
  }

  /** With one I/O type the stamp of a status is the generation of the report behind its numbers. */
  predicate Stamped(s: State, kind: IoType, status: Status) {
    && status.numbers.Keys == {kind}
    && (status.numbers[kind].From? ==> Report(kind, status.observed, status.numbers[kind].counted) in s.reports)
  }

  ghost predicate Coherent(s: State, kind: IoType) {
    && s.observed.Keys == {kind}
    && s.accepted <= s.reports
    && (forall report <- s.reports :: report.kind == kind)
    && Stamped(s, kind, s.status)
    && (forall status <- s.statuses :: Stamped(s, kind, status))
  }

  lemma StepCoherent(s: State, op: Op, kind: IoType)
    requires Coherent(s, kind) && Enabled(s, op)
    ensures Coherent(Next(s, op), kind)
  {
    var r := Next(s, op);
    assert s.reports <= r.reports;
    forall status | status in s.statuses
      ensures Stamped(r, kind, status)
    {
      assert Stamped(s, kind, status);
    }
  }

  lemma InitialCoherent(s: State, kind: IoType)
    requires Initial(s, {kind})
    ensures Coherent(s, kind)
  {
  }

  lemma CoherentNext(kind: IoType, states: seq<State>, ops: seq<Op>, i: nat)
    requires IsRun({kind}, states, ops) && i < |ops| && Coherent(states[i], kind)
    ensures Coherent(states[i + 1], kind)
  {
    assert StepAt(states, ops, i);
    StepCoherent(states[i], ops[i], kind);
  }

  lemma {:induction false} RunCoherent(kind: IoType, states: seq<State>, ops: seq<Op>, n: nat)
    requires IsRun({kind}, states, ops) && n < |states|
    ensures Coherent(states[n], kind)
  {
    if n > 0 {
      RunCoherent(kind, states, ops, n - 1);
      CoherentNext(kind, states, ops, n - 1);
    } else {
      InitialCoherent(states[0], kind);
    }
  }

  predicate Later(s: State, r: State) {
    s.generation <= r.generation && s.ledgers <= r.ledgers
  }

  lemma LaterTransitive(s: State, m: State, r: State)
    requires Later(s, m) && Later(m, r)
    ensures Later(s, r)
  {
  }

  lemma StepGrows(s: State, op: Op)
    requires Enabled(s, op)
    ensures Later(s, Next(s, op)) && Next(s, op).generation <= s.generation + 1
  {
  }

  /** A new generation comes with its spec. */
  lemma StepSnapshot(s: State, op: Op)
    requires Honest(s) && Enabled(s, op) && s.generation < Next(s, op).generation
    ensures var r := Next(s, op);
            var spec := Roster(r.generation, r.pods.Keys);
            r.generation == s.generation + 1 && spec in r.specs && spec !in s.specs
  {
    var r := Next(s, op);
    var spec := Roster(r.generation, r.pods.Keys);
    assert spec in s.specs ==> Exact(s, spec);
  }

  lemma {:induction false} LaterChain(states: seq<State>, m: nat, n: nat)
    requires m <= n < |states| && forall i | 0 <= i < n :: Later(states[i], states[i + 1])
    ensures Later(states[m], states[n])
  {
    if m < n {
      LaterChain(states, m, n - 1);
      LaterTransitive(states[m], states[n - 1], states[n]);
    }
  }

  lemma GenerationsGrow(kinds: set<IoType>, states: seq<State>, ops: seq<Op>, m: nat, n: nat)
    requires IsRun(kinds, states, ops) && m <= n < |states|
    ensures Later(states[m], states[n])
  {
    forall i | 0 <= i < n
      ensures Later(states[i], states[i + 1])
    {
      assert StepAt(states, ops, i);
      StepGrows(states[i], ops[i]);
    }
    LaterChain(states, m, n);
  }

  /** From state `j` to state `n` nothing was reserved or released. */
  predicate Steady(states: seq<State>, j: nat, n: nat)
    requires j <= n < |states|
  {
    forall i | j <= i <= n :: states[i].generation == states[n].generation && states[i].pods == states[n].pods
  }

  lemma SameGenerationSteady(kinds: set<IoType>, states: seq<State>, ops: seq<Op>, j: nat, n: nat)
    requires IsRun(kinds, states, ops) && j <= n < |states| && states[j].generation == states[n].generation
    ensures Steady(states, j, n)
  {
    RunHonest(kinds, states, ops, n);
    forall i | j <= i <= n
      ensures states[i].generation == states[n].generation && states[i].pods == states[n].pods
    {
      GenerationsGrow(kinds, states, ops, j, i);
      GenerationsGrow(kinds, states, ops, i, n);
      RunHonest(kinds, states, ops, i);
    }
  }

  /** The first state that has the generation of state `m`: its spec was queued just then. */
  lemma {:induction false} SnapshotTaken(kinds: set<IoType>, states: seq<State>, ops: seq<Op>, m: nat, generation: int)
    returns (j: nat)
    requires IsRun(kinds, states, ops) && m < |states| && 0 <= generation <= states[m].generation
    ensures j <= m && states[j].generation == generation
    ensures Roster(generation, states[j].pods.Keys) in states[j].specs
    ensures j == 0 || Roster(generation, states[j].pods.Keys) !in states[j - 1].specs
  {
    if m == 0 {
      j := 0;
      assert states[0].pods.Keys == {};
    } else if states[m - 1].generation < generation {
      j := m;
      RunHonest(kinds, states, ops, m - 1);
      assert StepAt(states, ops, m - 1);
      StepSnapshot(states[m - 1], ops[m - 1]);
    } else {
      j := SnapshotTaken(kinds, states, ops, m - 1, generation);
    }
  }

  /** The numbers that step `n` puts into the GA pools of `kind` were computed by the agent, at a
      step `m`, from a pod list that was snapshotted at state `j`; nothing was reserved or released
      from `j` on, and the agent counted no pod that is not reserved. */
  predicate CurrentAt(states: seq<State>, ops: seq<Op>, kind: IoType, n: nat, m: nat, j: nat)
    requires n < |ops| <= |states| && Overwrites(states[n], ops[n], kind)
  {
    var counted := ops[n].after.numbers[kind].counted;
    && j <= m < n
    && ComputedAt(states, ops, m, Report(kind, states[n].generation, counted))
    && Roster(states[n].generation, states[n].pods.Keys) in states[j].specs
    && Steady(states, j, n)
    && counted.Keys <= states[n].pods.Keys
  }

  ghost predicate Current(states: seq<State>, ops: seq<Op>, kind: IoType, n: nat)
    requires n < |ops| <= |states| && Overwrites(states[n], ops[n], kind)
  {
    exists m: nat, j: nat :: CurrentAt(states, ops, kind, n, m, j)
  }

  /** On a node that reports one I/O type, every overwriting of its GA pools is with current
      numbers, however lists, reports and publications are delayed, reordered, repeated or lost. */
  lemma OverwriteIsCurrent(kind: IoType, states: seq<State>, ops: seq<Op>, n: nat)
    requires IsRun({kind}, states, ops) && n < |ops| && Overwrites(states[n], ops[n], kind)
    ensures Current(states, ops, kind, n)
  {
    var s, after := states[n], ops[n].after;
    RunCoherent(kind, states, ops, n);
    assert StepAt(states, ops, n);
    assert Stamped(s, kind, after);
    var report := Report(kind, after.observed, after.numbers[kind].counted);
    var m := ReportComputed({kind}, states, ops, n, report);
    RunHonest({kind}, states, ops, m);
    assert Known(states[m], s.generation, report.counted.Keys);
    GenerationsGrow({kind}, states, ops, m, n);
    var j := SnapshotTaken({kind}, states, ops, m, s.generation);
    SameGenerationSteady({kind}, states, ops, j, n);
    assert CurrentAt(states, ops, kind, n, m, j);
  }

  // ---------------------------------------------------------------- more than one I/O type

  function Start(kinds: set<IoType>): (s: State)
    ensures Initial(s, kinds)
  {
    var status := Status(0, map k | k in kinds :: Unset);
    State(0, map[], map[], {Roster(0, {})}, Roster(0, {}), {}, {}, {}, status, {status}, map[], {},
          map k | k in kinds :: 0, map k | k in kinds :: map[], {}, [map[]])
  }

  ghost predicate Steps(states: seq<State>, ops: seq<Op>) {
    && |states| == |ops| + 1
    && forall i | 0 <= i < |ops| :: StepAt(states, ops, i)
  }

  lemma SameStep(a: seq<State>, x: seq<Op>, k: nat, states: seq<State>, ops: seq<Op>, i: nat)
    requires k < |x| < |a| && i < |ops| < |states| && StepAt(a, x, k)
    requires states[i] == a[k] && states[i + 1] == a[k + 1] && ops[i] == x[k]
    ensures StepAt(states, ops, i)
  {
  }

  lemma StepsJoin(a: seq<State>, x: seq<Op>, b: seq<State>, y: seq<Op>) returns (states: seq<State>)
    requires Steps(a, x) && Steps(b, y) && a[|x|] == b[0]
    ensures Steps(states, x + y)
    ensures states == a + b[1..]
  {
    states := a + b[1..];
    var ops := x + y;
    forall i | 0 <= i < |ops|
      ensures StepAt(states, ops, i)
    {
      if i < |x| {
        SameStep(a, x, i, states, ops, i);
      } else {
        SameStep(b, y, i - |x|, states, ops, i);
      }
    }
  }

  lemma Extend(states: seq<State>, ops: seq<Op>, op: Op) returns (more: seq<State>)
    requires Steps(states, ops) && Enabled(states[|ops|], op)
    ensures Steps(more, ops + [op]) && more == states + [Next(states[|ops|], op)]
  {
    var s := states[|ops|];
    more := StepsJoin(states, ops, [s, Next(s, op)], [op]);
  }

  /** An engine takes a list, computes, and its report is accepted, applied and published. */
  function ReportOps(kind: IoType, data: PodData): seq<Op> {
    var report := Report(kind, data.generation, data.pods);
    [Process(kind, data), Compute(kind), Accept(report), Apply(report), Publish]
  }

  function Stamp(s: State, kind: IoType, data: PodData): Status {
    Status(data.generation, s.status.numbers[kind := From(data.pods)])
  }

  lemma ComputeSteps(s: State, kind: IoType, data: PodData) returns (states: seq<State>)
    requires data in s.inbox && kind in s.observed
    ensures Steps(states, [Process(kind, data), Compute(kind)]) && states[0] == s
    ensures var r := states[2];
            && Report(kind, data.generation, data.pods) in r.reports
            && r.generation == s.generation && r.pods == s.pods && r.latest == s.latest && r.lists == s.lists
            && r.sent == s.sent && r.status == s.status && r.statuses == s.statuses
  {
    states := Extend([s], [], Process(kind, data));
    states := Extend(states, [Process(kind, data)], Compute(kind));
  }

  lemma PublishSteps(s: State, report: Report) returns (states: seq<State>)
    requires report in s.reports && report.kind in s.status.numbers && report.generation >= s.latest.generation
    ensures Steps(states, [Accept(report), Apply(report), Publish]) && states[0] == s
    ensures var r := states[3];
            && r.generation == s.generation && r.pods == s.pods && r.latest == s.latest && r.lists == s.lists
            && r.sent == s.sent && s.statuses <= r.statuses
            && Status(report.generation, s.status.numbers[report.kind := From(report.counted)]) in r.statuses
  {
    states := Extend([s], [], Accept(report));
    states := Extend(states, [Accept(report)], Apply(report));
    states := Extend(states, [Accept(report), Apply(report)], Publish);
  }

  lemma ReportSteps(s: State, kind: IoType, data: PodData) returns (states: seq<State>)
    requires data in s.inbox && kind in s.observed && kind in s.status.numbers
    requires data.generation >= s.latest.generation
    ensures Steps(states, ReportOps(kind, data)) && states[0] == s
    ensures states[5].generation == s.generation && states[5].pods == s.pods
    ensures states[5].latest == s.latest && states[5].lists == s.lists && states[5].sent == s.sent
    ensures s.statuses <= states[5].statuses
    ensures Stamp(s, kind, data) in states[5].statuses
  {
    var ops := ReportOps(kind, data);
    var a := ComputeSteps(s, kind, data);
    var b := PublishSteps(a[2], Report(kind, data.generation, data.pods));
    var report := Report(kind, data.generation, data.pods);
    assert [Process(kind, data), Compute(kind)] + [Accept(report), Apply(report), Publish] == ops;
    states := StepsJoin(a, [Process(kind, data), Compute(kind)], b, [Accept(report), Apply(report), Publish]);
  }

  /** The first report, of generation 0, before anything is reserved. */
  function FirstReportOps(kind: IoType): seq<Op> {
    [Compute(kind), Accept(Report(kind, 0, map[])), Apply(Report(kind, 0, map[]))]
  }

  lemma FirstReportSteps(kinds: set<IoType>, kind: IoType) returns (states: seq<State>)
    requires kind in kinds
    ensures Steps(states, FirstReportOps(kind)) && Initial(states[0], kinds)
    ensures var s := Start(kinds);
            states[3] == s.(reports := {Report(kind, 0, map[])}, accepted := {Report(kind, 0, map[])},
                            status := s.status.(numbers := s.status.numbers[kind := From(map[])]))
  {
    var ops := FirstReportOps(kind);
    var s0 := Start(kinds);
    var s1 := Next(s0, ops[0]);
    var s2 := Next(s1, ops[1]);
    states := [s0, s1, s2, Next(s2, ops[2])];
  }

  function Only(): PodList {
    PodList(1, map["p" := Some(APod())])
  }

  lemma FirstList()
    ensures ListOf(Roster(1, {"p"}), {"p"} - {}, map["p" := Some(APod())]) == Only()
    ensures Expanded(map[], Only()) == PodData(1, map["p" := APod()])
  {
  }

  /** A first pod is reserved and its list reaches the agent. */
  function FirstPodOps(): seq<Op> {
    [Reserve("p", APod()), TakeSpec(Roster(1, {"p"}), map["p" := Some(APod())]), Send(Only()), Receive(Only())]
  }

  lemma FirstPodSteps(s: State) returns (states: seq<State>)
    requires s.generation == 0 && s.pods == map[] && s.latest == Roster(0, {}) && s.store == map[]
    ensures Steps(states, FirstPodOps()) && states[0] == s
    ensures var r := states[4];
            && PodData(1, map["p" := APod()]) in r.inbox && r.latest.generation == r.generation == 1
            && r.pods.Keys == {"p"} && r.observed == s.observed && r.status == s.status && r.statuses == s.statuses
  {
    var ops := FirstPodOps();
    states := Extend([s], [], ops[0]);
    assert states[1].pods.Keys == {"p"};
    FirstList();
    states := Extend(states, ops[..1], ops[1]);
    assert Only() in states[2].lists;
    states := Extend(states, ops[..2], ops[2]);
    states := Extend(states, ops[..3], ops[3]);
    assert ops[..3] + [ops[3]] == ops;
  }

  /** The agent reports `kind` at generation 0; then a pod is reserved, and only the other type has
      seen the new list when it reports: its report stamps the old numbers of `kind` as current. */
  function StampedByOther(kind: IoType, other: IoType, kinds: set<IoType>): seq<Op> {
    var data := PodData(1, map["p" := APod()]);
    var unset := Start(kinds).status;
    var stale := unset.numbers[kind := From(map[])];
    FirstReportOps(kind) + FirstPodOps() + ReportOps(other, data) +
    [Observe(unset, Status(1, stale[other := From(data.pods)]))]
  }

  function BeforeObserve(kind: IoType, other: IoType): seq<Op> {
    FirstReportOps(kind) + FirstPodOps() + ReportOps(other, PodData(1, map["p" := APod()]))
  }

  lemma OtherTypeSteps(kind: IoType, other: IoType, kinds: set<IoType>) returns (states: seq<State>)
    requires kind in kinds && other in kinds && kind != other
    ensures Steps(states, BeforeObserve(kind, other)) && Initial(states[0], kinds)
    ensures states[12].generation == 1 && Start(kinds).status in states[12].statuses
    ensures Status(1, Start(kinds).status.numbers[kind := From(map[])][other := From(map["p" := APod()])])
              in states[12].statuses
  {
    var data := PodData(1, map["p" := APod()]);
    var a := FirstReportSteps(kinds, kind);
    var b := FirstPodSteps(a[3]);
    var c := ReportSteps(b[4], other, data);
    var ab := StepsJoin(a, FirstReportOps(kind), b, FirstPodOps());
    states := StepsJoin(ab, FirstReportOps(kind) + FirstPodOps(), c, ReportOps(other, data));
  }

  lemma OtherTypeRuns(kind: IoType, other: IoType, kinds: set<IoType>) returns (states: seq<State>)
    requires kind in kinds && other in kinds && kind != other
    ensures IsRun(kinds, states, StampedByOther(kind, other, kinds))
    ensures states[12].generation == 1
    ensures Overwrites(states[12], StampedByOther(kind, other, kinds)[12], kind)
  {
    var ops := StampedByOther(kind, other, kinds);
    var a := OtherTypeSteps(kind, other, kinds);
    assert ops == BeforeObserve(kind, other) + [ops[12]];
    states := StepsJoin(a, BeforeObserve(kind, other), [a[12], Next(a[12], ops[12])], [ops[12]]);
  }

  /** Only the first step of that run computes numbers of `kind`, at generation 0. */
  lemma OtherTypeNotCurrent(kind: IoType, other: IoType, kinds: set<IoType>, states: seq<State>)
    requires kind in kinds && kind != other && IsRun(kinds, states, StampedByOther(kind, other, kinds))
    requires states[12].generation == 1 && Overwrites(states[12], StampedByOther(kind, other, kinds)[12], kind)
    ensures !Current(states, StampedByOther(kind, other, kinds), kind, 12)
  {
    var ops := StampedByOther(kind, other, kinds);
    assert forall m | 0 <= m < 12 :: ops[m] == Compute(kind) ==> m == 0;
  }

  /** What the scheduler does with a status: it takes over whatever is filled in, for every type, if the
      status changed, has as many types as before, and is of the current generation; otherwise nothing. */
  lemma ObserveIs(s: State, before: Status, after: Status, kind: IoType)
    requires Enabled(s, Observe(before, after))
    ensures var r := Next(s, Observe(before, after));
            && (before == after || |before.numbers| != |after.numbers| || after.observed != s.generation ==> r == s)
            && (before != after && |before.numbers| == |after.numbers| && after.observed == s.generation ==>
                  && r == s.(ga := r.ga)
                  && (kind in after.numbers && after.numbers[kind].From? ==>
                        kind in r.ga && r.ga[kind] == after.numbers[kind])
                  && (!(kind in after.numbers && after.numbers[kind].From?) ==>
                        (kind in r.ga <==> kind in s.ga) && (kind in s.ga ==> r.ga[kind] == s.ga[kind])))
  {
  }

  /** What the aggregator does with a report: it takes one that is not older than the latest spec, and
      answers any other with a list that has the details of every pod it can read. */
  lemma ReportTakenOrAnswered(s: State, report: Report, answers: Answers)
    requires report in s.reports
    ensures Enabled(s, Accept(report)) <==> report.generation >= s.latest.generation
    ensures Enabled(s, Refuse(report, answers)) <==> report.generation < s.latest.generation
    ensures Enabled(s, Refuse(report, answers)) ==>
              exists list <- Next(s, Refuse(report, answers)).lists ::
                && list.generation == s.latest.generation && list.pods.Keys == s.latest.pods * answers.Keys
                && forall u <- list.pods :: list.pods[u] == answers[u]
  {
    if report.generation < s.latest.generation {
      var list := ListOf(s.latest, s.latest.pods, answers);
      assert list in Next(s, Refuse(report, answers)).lists;
      assert list.pods.Keys == s.latest.pods * answers.Keys;
    }
  }

  lemma GaNext(kinds: set<IoType>, states: seq<State>, ops: seq<Op>, i: nat, kind: IoType)
    requires IsRun(kinds, states, ops) && i < |ops|
    ensures if Overwrites(states[i], ops[i], kind)
            then kind in states[i + 1].ga && states[i + 1].ga[kind] == ops[i].after.numbers[kind]
            else (kind in states[i + 1].ga <==> kind in states[i].ga)
                 && (kind in states[i].ga ==> states[i + 1].ga[kind] == states[i].ga[kind])
  {
    assert StepAt(states, ops, i);
  }

  /** Step `i` is the last that overwrote this type before state `n`. */
  predicate LastOverwrite(states: seq<State>, ops: seq<Op>, kind: IoType, n: nat, i: nat)
    requires n <= |ops| <= |states|
  {
    i < n && Overwrites(states[i], ops[i], kind) && forall j | i < j < n :: !Overwrites(states[j], ops[j], kind)
  }

  /** What the scheduler has for an I/O type is what the last status that passed the guard carried; it has
      nothing exactly if none did. */
  lemma {:induction false} GaIsLastAdmitted(kinds: set<IoType>, states: seq<State>, ops: seq<Op>, n: nat, kind: IoType)
    returns (i: nat)
    requires IsRun(kinds, states, ops) && n <= |ops|
    ensures kind in states[n].ga ==>
              LastOverwrite(states, ops, kind, n, i) && states[n].ga[kind] == ops[i].after.numbers[kind]
    ensures kind !in states[n].ga ==> forall j | 0 <= j < n :: !Overwrites(states[j], ops[j], kind)
  {
    i := 0;
    if n > 0 {
      i := GaIsLastAdmitted(kinds, states, ops, n - 1, kind);
      GaNext(kinds, states, ops, n - 1, kind);
      if Overwrites(states[n - 1], ops[n - 1], kind) {
        i := n - 1;
      }
    }
  }

  /** So on a node with one I/O type the pools hold, at any time, what was computed at the generation the
      scheduler had when it took them over, from pods that were reserved then. */
  lemma GaWasCurrent(kind: IoType, states: seq<State>, ops: seq<Op>, n: nat) returns (i: nat)
    requires IsRun({kind}, states, ops) && n <= |ops| && kind in states[n].ga
    ensures LastOverwrite(states, ops, kind, n, i) && Current(states, ops, kind, i)
    ensures states[n].ga[kind] == ops[i].after.numbers[kind]
  {
    i := GaIsLastAdmitted({kind}, states, ops, n, kind);
    OverwriteIsCurrent(kind, states, ops, i);
  }

  ghost predicate AlwaysCurrent(kinds: set<IoType>, kind: IoType) {
    forall states, ops, n: nat | IsRun(kinds, states, ops) && n < |ops| && Overwrites(states[n], ops[n], kind) ::
      Current(states, ops, kind, n)
  }

  /** The generation is stamped per node: overwriting with current numbers is guaranteed for an I/O
      type exactly if the node reports no other. */
  lemma AlwaysCurrentIff(kinds: set<IoType>, kind: IoType)
    requires kind in kinds
    ensures AlwaysCurrent(kinds, kind) <==> kinds == {kind}
  {
    if kinds == {kind} {
      forall states, ops, n: nat | IsRun(kinds, states, ops) && n < |ops| && Overwrites(states[n], ops[n], kind)
        ensures Current(states, ops, kind, n)
      {
        OverwriteIsCurrent(kind, states, ops, n);
      }
    } else {
      var other :| other in kinds && other != kind;
      var ops := StampedByOther(kind, other, kinds);
      var states := OtherTypeRuns(kind, other, kinds);
      OtherTypeNotCurrent(kind, other, kinds, states);
    }
  }

  // ---------------------------------------------------------------- pods that are not counted

  lemma InboxNext(kinds: set<IoType>, states: seq<State>, ops: seq<Op>, i: nat)
    requires IsRun(kinds, states, ops) && i < |ops|
    ensures states[i + 1].inbox ==
            states[i].inbox + if ops[i].Receive? then {Expanded(states[i].store, ops[i].list)} else {}
  {
    assert StepAt(states, ops, i);
  }

  lemma {:induction false} DataReceived(kinds: set<IoType>, states: seq<State>, ops: seq<Op>, n: nat, data: PodData)
    returns (x: nat)
    requires IsRun(kinds, states, ops) && n < |states| && data in states[n].inbox
    ensures x < n && ops[x].Receive? && data == Expanded(states[x].store, ops[x].list)
  {
    assert n > 0;
    InboxNext(kinds, states, ops, n - 1);
    if data in states[n - 1].inbox {
      x := DataReceived(kinds, states, ops, n - 1, data);
    } else {
      x := n - 1;
    }
  }

  /** The pod was unregistered after step `y` and before step `m`. */
  predicate TakenOut(ops: seq<Op>, kind: IoType, uid: Uid, y: nat, m: nat)
    requires m <= |ops|
  {
    exists i | y < i < m :: ops[i] == Unregister(kind, uid)
  }

  function Gone(ops: seq<Op>, kind: IoType, y: nat, m: nat): (gone: set<Uid>)
    requires m <= |ops|
    ensures forall uid :: uid in gone <==> TakenOut(ops, kind, uid, y, m)
  {
    if m <= y + 1 then {}
    else Gone(ops, kind, y, m - 1) + Loss(ops[m - 1], kind)
  }

  function Loss(op: Op, kind: IoType): set<Uid> {
    if op.Unregister? && op.kind == kind then {op.uid} else {}
  }

  /** What the engine works with at state `m` is the list it took at step `y`, less the pods it has
      unregistered since. */
  ghost predicate FedBy(states: seq<State>, ops: seq<Op>, kind: IoType, m: nat, y: nat)
    requires y < m <= |ops| < |states|
  {
    && ops[y].Process? && ops[y].kind == kind
    && (forall i | y < i < m :: !(ops[i].Process? && ops[i].kind == kind))
    && Holds(states[m], kind, ops[y].data, Gone(ops, kind, y, m))
  }

  predicate Holds(s: State, kind: IoType, data: PodData, gone: set<Uid>) {
    && kind in s.observed && s.observed[kind] == data.generation
    && kind in s.view && s.view[kind] == data.pods - gone
  }

  predicate Unfed(s: State, kind: IoType) {
    kind in s.observed && s.observed[kind] == 0 && kind in s.view && s.view[kind] == map[]
  }

  lemma StepHolds(s: State, op: Op, kind: IoType, data: PodData, gone: set<Uid>)
    requires Enabled(s, op) && Holds(s, kind, data, gone) && !(op.Process? && op.kind == kind)
    ensures Holds(Next(s, op), kind, data, gone + Loss(op, kind))
  {
    assert op.Unregister? && op.kind == kind ==> data.pods - gone - {op.uid} == data.pods - (gone + {op.uid});
    assert data.pods - (gone + {}) == data.pods - gone;
  }

  lemma StepUnfed(s: State, op: Op, kind: IoType)
    requires Enabled(s, op) && Unfed(s, kind)
    ensures if op.Process? && op.kind == kind then Holds(Next(s, op), kind, op.data, {}) else Unfed(Next(s, op), kind)
  {
    assert op.Process? ==> op.data.pods - {} == op.data.pods;
  }

  lemma StepProcess(s: State, kind: IoType, data: PodData)
    requires Enabled(s, Process(kind, data))
    ensures Holds(Next(s, Process(kind, data)), kind, data, {})
  {
    assert data.pods - {} == data.pods;
  }

  lemma FedByNext(kinds: set<IoType>, states: seq<State>, ops: seq<Op>, kind: IoType, m: nat, y: nat)
    requires IsRun(kinds, states, ops) && y < m < |ops| && FedBy(states, ops, kind, m, y)
    requires !(ops[m].Process? && ops[m].kind == kind)
    ensures FedBy(states, ops, kind, m + 1, y)
  {
    assert StepAt(states, ops, m);
    StepHolds(states[m], ops[m], kind, ops[y].data, Gone(ops, kind, y, m));
  }

  lemma FedNow(kinds: set<IoType>, states: seq<State>, ops: seq<Op>, kind: IoType, m: nat)
    requires IsRun(kinds, states, ops) && m < |ops| && ops[m].Process? && ops[m].kind == kind
    ensures FedBy(states, ops, kind, m + 1, m)
  {
    assert StepAt(states, ops, m);
    StepProcess(states[m], kind, ops[m].data);
  }

  /** Where an engine's tables come from, at any state of a run. */
  lemma {:induction false} TablesFed(kinds: set<IoType>, states: seq<State>, ops: seq<Op>, kind: IoType, m: nat)
    returns (y: nat)
    requires IsRun(kinds, states, ops) && m < |states| && kind in kinds
    ensures Unfed(states[m], kind) || (y < m && FedBy(states, ops, kind, m, y))
  {
    y := 0;
    if m > 0 {
      y := TablesFed(kinds, states, ops, kind, m - 1);
      if ops[m - 1].Process? && ops[m - 1].kind == kind {
        FedNow(kinds, states, ops, kind, m - 1);
        y := m - 1;
      } else if Unfed(states[m - 1], kind) {
        assert StepAt(states, ops, m - 1);
        StepUnfed(states[m - 1], ops[m - 1], kind);
      } else {
        FedByNext(kinds, states, ops, kind, m - 1, y);
      }
    }
  }

  lemma FirstLedgerEmpty(kinds: set<IoType>, states: seq<State>, ops: seq<Op>, n: nat)
    requires IsRun(kinds, states, ops) && n < |states|
    ensures |states[n].ledgers| > 0 && states[n].ledgers[0] == map[]
  {
    GenerationsGrow(kinds, states, ops, 0, n);
  }

  /** The list does not name the pod, or names it without details that `store` does not have. */
  predicate Unknown(store: Pods, list: PodList, uid: Uid) {
    uid !in list.pods || (!Detailed(list.pods[uid]) && uid !in store)
  }

  lemma UnknownIff(store: Pods, list: PodList, uid: Uid)
    ensures uid !in Expanded(store, list).pods <==> Unknown(store, list, uid)
  {
  }

  /** The pod was unknown when list `x` was received, or was unregistered between steps `y` and `m`. */
  predicate Lost(states: seq<State>, ops: seq<Op>, kind: IoType, x: nat, y: nat, m: nat, uid: Uid)
    requires x < |states| && x < |ops| && ops[x].Receive? && m <= |ops|
  {
    Unknown(states[x].store, ops[x].list, uid) || TakenOut(ops, kind, uid, y, m)
  }

  /** The numbers that overwrite the pools miss a reserved pod exactly if the pod was unknown when the
      agent received the list they were computed from, or was unregistered between the taking of that
      list and the computation. */
  lemma MissedIff(kind: IoType, states: seq<State>, ops: seq<Op>, n: nat) returns (x: nat, y: nat, m: nat)
    requires IsRun({kind}, states, ops) && n < |ops| && Overwrites(states[n], ops[n], kind) && states[n].pods != map[]
    ensures x < y < m < n
    ensures ops[x].Receive? && ops[x].list.generation == states[n].generation
    ensures ops[y] == Process(kind, Expanded(states[x].store, ops[x].list))
    ensures forall i | y < i < m :: !(ops[i].Process? && ops[i].kind == kind)
    ensures ComputedAt(states, ops, m, Report(kind, states[n].generation, ops[n].after.numbers[kind].counted))
    ensures forall uid :: uid !in ops[n].after.numbers[kind].counted <==> Lost(states, ops, kind, x, y, m, uid)
  {
    OverwriteIsCurrent(kind, states, ops, n);
    var j: nat;
    m, j :| CurrentAt(states, ops, kind, n, m, j);
    y := TablesFed({kind}, states, ops, kind, m);
    RunHonest({kind}, states, ops, n);
    FirstLedgerEmpty({kind}, states, ops, n);
    assert states[n].generation != 0;
    x := ListTaken({kind}, states, ops, y);
    forall uid
      ensures uid !in ops[n].after.numbers[kind].counted <==> Lost(states, ops, kind, x, y, m, uid)
    {
      UnknownIff(states[x].store, ops[x].list, uid);
      assert uid in Gone(ops, kind, y, m) <==> TakenOut(ops, kind, uid, y, m);
    }
  }

  lemma ListTaken(kinds: set<IoType>, states: seq<State>, ops: seq<Op>, y: nat) returns (x: nat)
    requires IsRun(kinds, states, ops) && y < |ops| && ops[y].Process?
    ensures x < y && ops[x].Receive? && ops[y].data == Expanded(states[x].store, ops[x].list)
  {
    assert StepAt(states, ops, y);
    x := DataReceived(kinds, states, ops, y, ops[y].data);
  }

  function Second(): PodList {
    PodList(2, map["p" := None, "q" := Some(APod())])
  }

  /** Without any failing call: the list that carried the details of "p" is out of date before it is
      sent, and the one that is sent names "p" only. */
  function OvertakenOps(): seq<Op> {
    [Reserve("p", APod()), TakeSpec(Roster(1, {"p"}), map["p" := Some(APod())])] + SecondPodOps()
  }

  function SecondPodOps(): seq<Op> {
    [Reserve("q", APod()), TakeSpec(Roster(2, {"p", "q"}), map["q" := Some(APod())]),
     Send(Second()), Receive(Second())]
  }

  lemma SecondList()
    ensures ListOf(Roster(2, {"p", "q"}), {"p", "q"} - {"p"}, map["q" := Some(APod())]) == Second()
    ensures Expanded(map[], Second()) == PodData(2, map["q" := APod()])
  {
  }

  lemma SecondPodSteps(s: State) returns (states: seq<State>)
    requires s.generation == 1 && s.pods.Keys == {"p"} && s.latest == Roster(1, {"p"}) && s.store == map[]
    ensures Steps(states, SecondPodOps()) && states[0] == s
    ensures var r := states[4];
            && r.lists == s.lists + {Second()} && r.sent == s.sent + {Second()}
            && PodData(2, map["q" := APod()]) in r.inbox && r.latest.generation == r.generation == 2
            && r.pods.Keys == {"p", "q"} && r.observed == s.observed
            && r.status == s.status && r.statuses == s.statuses
  {
    var ops := SecondPodOps();
    var s1 := Next(s, ops[0]);
    assert s1.pods.Keys == {"p", "q"};
    SecondList();
    var s2 := Next(s1, ops[1]);
    var s3 := Next(s2, ops[2]);
    var s4 := Next(s3, ops[3]);
    states := [s, s1, s2, s3, s4];
  }

  lemma OvertakenSteps(kinds: set<IoType>) returns (states: seq<State>)
    ensures Steps(states, OvertakenOps()) && states[0] == Start(kinds)
    ensures var r := states[6];
            && r.lists == {Only(), Second()} && r.sent == {Second()}
            && PodData(2, map["q" := APod()]) in r.inbox && r.latest.generation == r.generation == 2
            && r.pods.Keys == {"p", "q"} && r.observed == states[0].observed
            && r.status == states[0].status && r.statuses == states[0].statuses
  {
    var ops := OvertakenOps();
    var s0 := Start(kinds);
    var s1 := Next(s0, ops[0]);
    assert s1.pods.Keys == {"p"};
    FirstList();
    var s2 := Next(s1, ops[1]);
    var b := SecondPodSteps(s2);
    states := StepsJoin([s0, s1, s2], ops[..2], b, SecondPodOps());
    assert ops[..2] + SecondPodOps() == ops;
  }

  /** The list has details of the pod. */
  predicate Carries(list: PodList, uid: Uid) {
    uid in list.pods && Detailed(list.pods[uid])
  }

  function DetailsDropped(kind: IoType): seq<Op> {
    var data := PodData(2, map["q" := APod()]);
    OvertakenOps() + ReportOps(kind, data) +
    [Observe(Status(0, map[kind := Unset]), Status(2, map[kind := From(data.pods)]))]
  }

  /** After that run the GA pools hold numbers that do not count the reserved pod "p", and nothing
      in the queues can still bring its details. */
  lemma DroppedListLosesPod(kind: IoType) returns (states: seq<State>)
    ensures IsRun({kind}, states, DetailsDropped(kind))
    ensures Only() in states[11].lists && Carries(Only(), "p")
    ensures forall list | Carries(list, "p") :: !Enabled(states[11], Send(list)) && !Enabled(states[11], Receive(list))
    ensures var s, op := states[11], DetailsDropped(kind)[11];
            Overwrites(s, op, kind) && "p" in s.pods && "p" !in op.after.numbers[kind].counted
  {
    var ops := DetailsDropped(kind);
    var before := BeforeLastObserve(kind);
    assert ops == before + [ops[11]];
    var a := DetailsDroppedSteps(kind);
    states := Extend(a, before, ops[11]);
    NoDetailsLeft(states[11]);
  }

  lemma NoDetailsLeft(s: State)
    requires s.lists == {Only(), Second()} && s.sent == {Second()} && s.latest.generation == 2
    ensures Only() in s.lists && Carries(Only(), "p")
    ensures forall list | Carries(list, "p") :: !Enabled(s, Send(list)) && !Enabled(s, Receive(list))
  {
  }

  function BeforeLastObserve(kind: IoType): seq<Op> {
    OvertakenOps() + ReportOps(kind, PodData(2, map["q" := APod()]))
  }

  lemma DetailsDroppedSteps(kind: IoType) returns (states: seq<State>)
    ensures Steps(states, BeforeLastObserve(kind)) && Initial(states[0], {kind})
    ensures var r := states[11];
            && r.generation == r.latest.generation == 2 && r.pods.Keys == {"p", "q"}
            && r.lists == {Only(), Second()} && r.sent == {Second()}
            && Status(0, map[kind := Unset]) in r.statuses
            && Status(2, map[kind := From(map["q" := APod()])]) in r.statuses
  {
    var data := PodData(2, map["q" := APod()]);
    var a := OvertakenSteps({kind});
    assert a[0].status == Status(0, map[kind := Unset]);
    var b := ReportSteps(a[6], kind, data);
    states := StepsJoin(a, OvertakenOps(), b, ReportOps(kind, data));
    assert Stamp(a[6], kind, data) == Status(2, map[kind := From(data.pods)]);
  }

  /** The list with the details of "p" is taken, and "p" is then unregistered before the report. */
  function TakenOutOps(kind: IoType): seq<Op> {
    [Process(kind, PodData(1, map["p" := APod()])), Unregister(kind, "p"), Compute(kind)]
  }

  function UnregisteredOps(kind: IoType): seq<Op> {
    var report := Report(kind, 1, map[]);
    FirstPodOps() + TakenOutOps(kind) + [Accept(report), Apply(report), Publish]
  }

  function Unregistered(kind: IoType): seq<Op> {
    UnregisteredOps(kind) + [Observe(Status(0, map[kind := Unset]), Status(1, map[kind := From(map[])]))]
  }

  lemma TakenOutSteps(s: State, kind: IoType) returns (states: seq<State>)
    requires PodData(1, map["p" := APod()]) in s.inbox && kind in s.observed
    ensures Steps(states, TakenOutOps(kind)) && states[0] == s
    ensures var r := states[3];
            && Report(kind, 1, map[]) in r.reports
            && r.generation == s.generation && r.pods == s.pods && r.latest == s.latest
            && r.status == s.status && r.statuses == s.statuses
  {
    var ops := TakenOutOps(kind);
    states := Extend([s], [], ops[0]);
    states := Extend(states, ops[..1], ops[1]);
    assert states[2].view[kind] == map[];
    states := Extend(states, ops[..2], ops[2]);
    assert ops[..2] + [ops[2]] == ops;
  }

  lemma UnregisteredSteps(kind: IoType) returns (states: seq<State>)
    ensures Steps(states, UnregisteredOps(kind)) && Initial(states[0], {kind})
    ensures var r := states[10];
            && r.generation == 1 && r.pods.Keys == {"p"}
            && Status(0, map[kind := Unset]) in r.statuses && Status(1, map[kind := From(map[])]) in r.statuses
  {
    var report := Report(kind, 1, map[]);
    var a := FirstPodSteps(Start({kind}));
    assert a[0].status == Status(0, map[kind := Unset]);
    var b := TakenOutSteps(a[4], kind);
    var c := PublishSteps(b[3], report);
    var ab := StepsJoin(a, FirstPodOps(), b, TakenOutOps(kind));
    assert b[3].status.numbers[kind := From(map[])] == map[kind := From(map[])];
    states := StepsJoin(ab, FirstPodOps() + TakenOutOps(kind), c, [Accept(report), Apply(report), Publish]);
  }

  /** After that run the GA pools hold numbers that do not count the reserved pod "p", although the only
      list ever sent had its details. */
  lemma UnregisteredPodLost(kind: IoType) returns (states: seq<State>)
    ensures IsRun({kind}, states, Unregistered(kind))
    ensures forall i | 0 <= i < |Unregistered(kind)| && Unregistered(kind)[i].Receive? ::
              Carries(Unregistered(kind)[i].list, "p") && Unregistered(kind)[i].list.generation == 1
    ensures var s, op := states[10], Unregistered(kind)[10];
            && Overwrites(s, op, kind) && s.generation == 1
            && "p" in s.pods && "p" !in op.after.numbers[kind].counted
  {
    var ops := Unregistered(kind);
    var a := UnregisteredSteps(kind);
    states := Extend(a, UnregisteredOps(kind), ops[10]);
  }
}
