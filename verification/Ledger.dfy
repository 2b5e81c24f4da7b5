/** The ledger of reserved pods of one node and the worker that publishes it
    (pkg/scheduler/resource/context.go).

    Every change of the ledger bumps its generation and queues a snapshot.  The worker writes the
    pod's allocated-io annotation and then publishes the snapshot as the spec of the node's status
    resource, unless the generation is not newer than the last one it published. */
module Ledger {
  import opened IoTypes

  datatype PodRef = PodRef(name: string, namespace: string)

  datatype Spec = Spec(generation: int, reservedPods: map<Uid, PodRef>)

  /** A queued update: the snapshot, the pod it is about, and its request if it was added. */
  datatype SyncItem = SyncItem(spec: Spec, uid: Uid, req: Option<PodRequest>)

  datatype Context = Context(
    generation: int,
    pods: Pods,
    lastUpdatedGen: int,
    queue: seq<SyncItem>,
    published: seq<Spec>,
    annotations: Pods)

  /** GetReservedPodsWithNameNS. */
  function Snapshot(generation: int, pods: Pods): Spec {
    Spec(generation, map uid | uid in pods :: PodRef(pods[uid].name, pods[uid].namespace))
  }

  function WithPod(c: Context, uid: Uid, req: PodRequest): Context {
    var pods := c.pods[uid := req];
    c.(generation := c.generation + 1,
       pods := pods,
       lastUpdatedGen := -1,
       queue := c.queue + [SyncItem(Snapshot(c.generation + 1, pods), uid, Some(req))])
  }

  function WithoutPod(c: Context, uid: Uid): Context {
    var pods := c.pods - {uid};
    c.(generation := c.generation + 1,
       pods := pods,
       queue := c.queue + [SyncItem(Snapshot(c.generation + 1, pods), uid, None)])
  }

  /** The annotation write that precedes a publication. */
  function Annotate(c: Context, item: SyncItem): Context {
    match item.req
    case Some(req) => c.(annotations := c.annotations[item.uid := req])
    case None => c.(annotations := c.annotations - {item.uid})
  }

  /** How far the API server lets an attempt get. */
  datatype Fate = Success | AnnotationFails | SpecFails

  /** An item without any request can never be rendered as an annotation. */
  predicate Renderable(item: SyncItem) {
    item.req.Some? ==> item.req.value.requests != []
  }

  /** One turn of the worker: it takes the head of the queue, and puts it back after a failure. */
  function Worked(c: Context, fate: Fate): Context
    requires c.queue != []
  {
    var item := c.queue[0];
    var taken := c.(queue := c.queue[1..]);
    if item.spec.generation <= c.lastUpdatedGen then taken
    else if !Renderable(item) || fate == AnnotationFails then taken.(queue := taken.queue + [item])
    else if fate == SpecFails then Annotate(taken, item).(queue := taken.queue + [item])
    else Annotate(taken, item).(published := c.published + [item.spec], lastUpdatedGen := item.spec.generation)
  }

  // ---------------------------------------------------------------- the context object

  class ResourceIoContext {
    const node: string
    var generation: int
    var pods: Pods
    var lastUpdatedGen: int
    var queue: seq<SyncItem>
    var published: seq<Spec>
    var annotations: Pods

    ghost function State(): Context
      reads this
    {
      Context(generation, pods, lastUpdatedGen, queue, published, annotations)
    }

    constructor (node: string, generation: int, pods: Pods)
      ensures this.node == node && State() == Context(generation, pods, -1, [], [], pods)
    {
      this.node := node;
      this.generation, this.pods, lastUpdatedGen := generation, pods, -1;
      queue, published, annotations := [], [], pods;
    }

    method SetReservedPods(pods: Pods)
      modifies this
      ensures State() == old(State()).(pods := pods, lastUpdatedGen := -1)
    {
      this.pods := pods;
      lastUpdatedGen := -1;
    }

    method UpdateReservedPods(uid: Uid, req: Option<PodRequest>)
      modifies this
      ensures State() == old(State()).(queue := old(queue) + [SyncItem(Snapshot(generation, pods), uid, req)])
    {
      queue := queue + [SyncItem(Snapshot(generation, pods), uid, req)];
    }

    method AddPod(uid: Uid, req: PodRequest)
      modifies this
      ensures State() == WithPod(old(State()), uid, req)
    {
      generation := generation + 1;
      SetReservedPods(pods[uid := req]);
      UpdateReservedPods(uid, Some(req));
    }

    /** The ledger is looked up under the node recorded in the pod, not under the node argument. */
    method RemovePod(uid: Uid, podNode: string) returns (r: Result<()>)
      modifies this
      ensures r.Ok? <==> podNode == node
      ensures r.Ok? ==> State() == WithoutPod(old(State()), uid)
      ensures r.Err? ==> State() == old(State())
    {
      if podNode != node {
        return Err("get reserved pods error");
      }
      generation := generation + 1;
      pods := pods - {uid};
      UpdateReservedPods(uid, None);
      r := Ok(());
    }

    method RunWorkerQueue(fate: Fate)
      requires queue != []
      modifies this
      ensures State() == Worked(old(State()), fate)
    {
      var item := queue[0];
      queue := queue[1..];
      if item.spec.generation <= lastUpdatedGen {
        return;
      }
      if !Renderable(item) || fate == AnnotationFails {
        queue := queue + [item];
        return;
      }
      annotations := if item.req.Some? then annotations[item.uid := item.req.value] else annotations - {item.uid};
      if fate == SpecFails {
        queue := queue + [item];
        return;
      }
      published := published + [item.spec];
      lastUpdatedGen := item.spec.generation;
    }
  }

  // ---------------------------------------------------------------- runs

  datatype Op = Add(uid: Uid, req: PodRequest) | Remove(uid: Uid) | Turn(fate: Fate)

  function Step(c: Context, op: Op): Context {
    match op
    case Add(uid, req) => WithPod(c, uid, req)
    case Remove(uid) => WithoutPod(c, uid)
    case Turn(fate) => if c.queue == [] then c else Worked(c, fate)
  }

  function Run(c: Context, ops: seq<Op>): Context {
    if ops == [] then c else Step(Run(c, ops[..|ops| - 1]), ops[|ops| - 1])
  }

  /** The ledger after each of its changes in a run, the initial one first. */
  function History(c: Context, ops: seq<Op>): (h: seq<Pods>)
    ensures h != []
  {
    if ops == [] then [c.pods]
    else
      var h := History(c, ops[..|ops| - 1]);
      if ops[|ops| - 1].Turn? then h else h + [Step(Run(c, ops[..|ops| - 1]), ops[|ops| - 1]).pods]
  }

  predicate Initial(c: Context) {
    c.generation >= 0 && c.queue == [] && c.published == [] && c.lastUpdatedGen == -1 && c.annotations == c.pods
  }

  /** No attempt of the worker fails and every added pod asks for something. */
  predicate Smooth(ops: seq<Op>) {
    forall i | 0 <= i < |ops| ::
      match ops[i]
      case Add(_, req) => req.requests != []
      case Remove(_) => true
      case Turn(fate) => fate == Success
  }

  /** The item carries the k-th ledger of the history and the change that led to it. */
  ghost predicate Records(item: SyncItem, base: int, h: seq<Pods>, k: int)
    requires 0 < k < |h|
  {
    && item.spec == Snapshot(base + k, h[k])
    && Renderable(item)
    && h[k] == match item.req
               case Some(req) => h[k - 1][item.uid := req]
               case None => h[k - 1] - {item.uid}
  }

  /** With `h` the history since generation `base`: the queue holds the latest changes, everything
      older is published, and what is visible outside is the ledger as of the last publication. */
  ghost predicate Delayed(c: Context, base: int, h: seq<Pods>) {
    && h != []
    && |c.queue| < |h|
    && c.generation == base + |h| - 1
    && c.pods == h[|h| - 1]
    && (c.lastUpdatedGen == -1 || c.lastUpdatedGen < base + |h| - |c.queue|)
    && |c.published| == |h| - 1 - |c.queue|
    && (forall k | 0 <= k < |c.published| :: c.published[k] == Snapshot(base + k + 1, h[k + 1]))
    && (forall i | 0 <= i < |c.queue| :: Records(c.queue[i], base, h, |h| - |c.queue| + i))
    && c.annotations == h[|h| - 1 - |c.queue|]
  }

  lemma ChangeDelayed(c: Context, base: int, h: seq<Pods>, op: Op)
    requires Delayed(c, base, h) && !op.Turn?
    requires op.Add? ==> op.req.requests != []
    ensures Delayed(Step(c, op), base, h + [Step(c, op).pods])
  {
    var r := Step(c, op);
    var h' := h + [r.pods];
    forall i | 0 <= i < |r.queue|
      ensures Records(r.queue[i], base, h', |h'| - |r.queue| + i)
    {
      if i < |c.queue| {
        assert Records(c.queue[i], base, h, |h| - |c.queue| + i);
      }
    }
  }

  lemma TurnDelayed(c: Context, base: int, h: seq<Pods>)
    requires base >= 0 && Delayed(c, base, h) && c.queue != []
    ensures Delayed(Worked(c, Success), base, h)
  {
    var r := Worked(c, Success);
    var k := |h| - |c.queue|;
    assert Records(c.queue[0], base, h, k + 0);
    HeadPublished(c, base, h, k);
    forall i | 0 <= i < |r.queue|
      ensures Records(r.queue[i], base, h, |h| - |r.queue| + i)
    {
      assert Records(c.queue[i + 1], base, h, k + (i + 1));
    }
  }

  /** The item at the head of the queue is newer than anything published, and is the next change. */
  lemma HeadPublished(c: Context, base: int, h: seq<Pods>, k: int)
    requires base >= 0 && c.queue != [] && 0 < k < |h| && Records(c.queue[0], base, h, k)
    requires (c.lastUpdatedGen == -1 || c.lastUpdatedGen < base + k) && c.annotations == h[k - 1]
    ensures var r := Worked(c, Success);
            && r == c.(queue := c.queue[1..], published := c.published + [Snapshot(base + k, h[k])],
                       lastUpdatedGen := base + k, annotations := h[k])
  {
  }

  lemma {:induction false} SmoothRunDelayed(c: Context, ops: seq<Op>)
    requires Initial(c) && Smooth(ops)
    ensures Delayed(Run(c, ops), c.generation, History(c, ops))
  {
    if ops != [] {
      var before := ops[..|ops| - 1];
      var op := ops[|ops| - 1];
      SmoothRunDelayed(c, before);
      var m, h := Run(c, before), History(c, before);
      if !op.Turn? {
        ChangeDelayed(m, c.generation, h, op);
      } else if m.queue != [] {
        TurnDelayed(m, c.generation, h);
      }
    }
  }

  /** The spec names exactly the pods of a ledger, each by its own name and namespace. */
  predicate Describes(spec: Spec, generation: int, pods: Pods) {
    && spec.generation == generation && spec.reservedPods.Keys == pods.Keys
    && forall u <- pods ::
         spec.reservedPods[u].name == pods[u].name && spec.reservedPods[u].namespace == pods[u].namespace
  }

  /** When the worker takes the specs in queue order without failures, the k-th published spec is
      the snapshot of the k-th ledger change, so generations strictly increase although AddPod
      keeps resetting lastUpdatedGen; and at every moment the annotated pods, with what they are
      annotated with, are exactly the ledger that the last published spec lists. */
  lemma PublishedInOrder(c: Context, ops: seq<Op>)
    requires Initial(c) && Smooth(ops)
    ensures var r, h := Run(c, ops), History(c, ops);
            && |r.published| < |h|
            && (forall k | 0 <= k < |r.published| :: Describes(r.published[k], c.generation + k + 1, h[k + 1]))
            && (forall j, k | 0 <= j < k < |r.published| :: r.published[j].generation < r.published[k].generation)
            && r.annotations == h[|r.published|]
            && (r.published != [] ==> r.annotations.Keys == r.published[|r.published| - 1].reservedPods.Keys)
            && (r.queue == [] ==> r.annotations == r.pods)
  {
    SmoothRunDelayed(c, ops);
    DelayedShows(Run(c, ops), c.generation, History(c, ops));
  }

  lemma DelayedShows(c: Context, base: int, h: seq<Pods>)
    requires Delayed(c, base, h)
    ensures |c.published| < |h| && c.annotations == h[|c.published|]
    ensures forall k | 0 <= k < |c.published| :: c.published[k] == Snapshot(base + k + 1, h[k + 1])
    ensures forall j, k | 0 <= j < k < |c.published| :: c.published[j].generation < c.published[k].generation
    ensures c.published != [] ==> c.annotations.Keys == c.published[|c.published| - 1].reservedPods.Keys
    ensures c.queue == [] ==> c.annotations == c.pods
  {
    forall k | 0 <= k < |c.published|
      ensures c.published[k].generation == base + k + 1
    {
      assert c.published[k] == Snapshot(base + k + 1, h[k + 1]);
    }
  }

  predicate Ascending(specs: seq<Spec>) {
    forall j, k | 0 <= j < k < |specs| :: specs[j].generation < specs[k].generation
  }

  function LastGeneration(specs: seq<Spec>): int {
    if specs == [] then -1 else specs[|specs| - 1].generation
  }

  /** Turns of the worker, with what becomes of each. */
  function AfterTurns(c: Context, fates: seq<Fate>): Context
    decreases |fates|
  {
    if fates == [] then c else AfterTurns(Step(c, Turn(fates[0])), fates[1..])
  }

  /** The worker would publish this item, after a newer one. */
  predicate Late(c: Context, item: SyncItem) {
    Renderable(item) && c.lastUpdatedGen < item.spec.generation <= LastGeneration(c.published)
  }

  predicate Overdue(c: Context) {
    c.published != [] && exists i | 0 <= i < |c.queue| :: Late(c, c.queue[i])
  }

  lemma TurnKeepsOrder(c: Context, fate: Fate)
    requires Ascending(c.published) && !Overdue(c)
    ensures var r := Step(c, Turn(fate)); Ascending(r.published) && !Overdue(r)
  {
    if c.queue != [] {
      var r, item := Worked(c, fate), c.queue[0];
      assert !(c.published != [] && Late(c, item));
      if r.published == c.published {
        SameOverdue(c, r);
      } else {
        AppendAscends(c.published, item.spec);
      }
    }
  }

  lemma AppendAscends(specs: seq<Spec>, spec: Spec)
    requires Ascending(specs)
    ensures Ascending(specs + [spec]) <==> specs == [] || LastGeneration(specs) < spec.generation
    ensures LastGeneration(specs + [spec]) == spec.generation
  {
    var more := specs + [spec];
    if specs != [] {
      var n := |specs|;
      assert more[n - 1].generation == LastGeneration(specs) && more[n] == spec;
    }
  }

  lemma SameOverdue(c: Context, r: Context)
    requires r.published == c.published && r.lastUpdatedGen == c.lastUpdatedGen && !Overdue(c)
    requires forall i | 0 <= i < |r.queue| :: r.queue[i] in c.queue
    ensures !Overdue(r)
  {
    forall i | 0 <= i < |r.queue|
      ensures c.published != [] ==> !Late(r, r.queue[i])
    {
      var k :| 0 <= k < |c.queue| && c.queue[k] == r.queue[i];
      assert c.published != [] ==> !Late(c, c.queue[k]);
    }
  }

  lemma {:induction false} TurnsKeepOrder(c: Context, fates: seq<Fate>)
    requires Ascending(c.published) && !Overdue(c)
    ensures Ascending(AfterTurns(c, fates).published)
    decreases |fates|
  {
    if fates != [] {
      TurnKeepsOrder(c, fates[0]);
      TurnsKeepOrder(Step(c, Turn(fates[0])), fates[1..]);
    }
  }

  /** Fail what is in front of the late item, then let it through. */
  lemma {:induction false} LatePublished(c: Context, i: nat) returns (fates: seq<Fate>)
    requires Ascending(c.published) && c.published != [] && i < |c.queue| && Late(c, c.queue[i])
    ensures !Ascending(AfterTurns(c, fates).published)
    decreases i
  {
    if i == 0 {
      fates := [Success];
      var r := Worked(c, Success);
      AppendAscends(c.published, c.queue[0].spec);
      assert AfterTurns(c, fates) == AfterTurns(r, fates[1..]) == r;
    } else {
      var r := Worked(c, AnnotationFails);
      assert r.queue[i - 1] == c.queue[i];
      assert Late(r, r.queue[i - 1]);
      var rest := LatePublished(r, i - 1);
      fates := [AnnotationFails] + rest;
      assert fates[1..] == rest;
    }
  }

  /** Whatever fails, the worker's turns publish in order. */
  ghost predicate TurnsSafe(c: Context) {
    forall fates :: Ascending(AfterTurns(c, fates).published)
  }

  /** From any state, every sequence of turns with any failures publishes in ascending order exactly
      if no queued item is late. */
  lemma TurnsSafeIff(c: Context)
    requires Ascending(c.published)
    ensures TurnsSafe(c) <==> !Overdue(c)
  {
    if Overdue(c) {
      var i :| 0 <= i < |c.queue| && Late(c, c.queue[i]);
      var fates := LatePublished(c, i);
    } else {
      forall fates
        ensures Ascending(AfterTurns(c, fates).published)
      {
        TurnsKeepOrder(c, fates);
      }
    }
  }

  /** Generations of messages are those the ledger has had. */
  predicate Bounded(c: Context) {
    && c.generation >= 0 && c.lastUpdatedGen >= -1
    && (forall i | 0 <= i < |c.queue| :: 0 <= c.queue[i].spec.generation <= c.generation)
    && (forall i | 0 <= i < |c.published| :: 0 <= c.published[i].generation <= c.generation)
  }

  lemma StepBounded(c: Context, op: Op)
    requires Bounded(c)
    ensures Bounded(Step(c, op))
  {
  }

  lemma {:induction false} RunBounded(c: Context, ops: seq<Op>)
    requires Initial(c)
    ensures Bounded(Run(c, ops))
  {
    if ops != [] {
      RunBounded(c, ops[..|ops| - 1]);
      StepBounded(Run(c, ops[..|ops| - 1]), ops[|ops| - 1]);
    }
  }

  /** A renderable item is still queued, of a generation not newer than what was published last:
      AddPod must not reset lastUpdatedGen now. */
  predicate Overtaken(c: Context) {
    c.published != [] &&
    exists i | 0 <= i < |c.queue| :: Renderable(c.queue[i]) && c.queue[i].spec.generation <= LastGeneration(c.published)
  }

  lemma AddOverdueIff(c: Context, uid: Uid, req: PodRequest)
    requires Bounded(c)
    ensures Overdue(WithPod(c, uid, req)) <==> Overtaken(c)
  {
    var r := WithPod(c, uid, req);
    forall i | 0 <= i < |c.queue|
      ensures r.queue[i] == c.queue[i]
    {
    }
    if Overtaken(c) {
      var i :| && 0 <= i < |c.queue| && Renderable(c.queue[i])
               && c.queue[i].spec.generation <= LastGeneration(c.published);
      assert Late(r, r.queue[i]);
    }
  }

  lemma RemoveKeepsOrder(c: Context, uid: Uid)
    requires Bounded(c) && !Overdue(c)
    ensures !Overdue(WithoutPod(c, uid))
  {
    var r := WithoutPod(c, uid);
    forall i | 0 <= i < |r.queue|
      ensures c.published != [] ==> !Late(r, r.queue[i])
    {
      if i < |c.queue| {
        assert c.published != [] ==> !Late(c, c.queue[i]);
      }
    }
  }

  /** No pod is added while an overtaken item is queued. */
  predicate AddsInTime(c: Context, ops: seq<Op>) {
    forall i | 0 <= i < |ops| && ops[i].Add? :: !Overtaken(Run(c, ops[..i]))
  }

  lemma AddsInTimeBefore(c: Context, ops: seq<Op>)
    requires ops != [] && AddsInTime(c, ops)
    ensures AddsInTime(c, ops[..|ops| - 1])
  {
    var before := ops[..|ops| - 1];
    forall i | 0 <= i < |before| && before[i].Add?
      ensures !Overtaken(Run(c, before[..i]))
    {
      assert ops[i] == before[i] && before[..i] == ops[..i];
    }
  }

  lemma {:induction false} InTimeKeepsOrder(c: Context, ops: seq<Op>)
    requires Initial(c) && AddsInTime(c, ops)
    ensures Ascending(Run(c, ops).published) && !Overdue(Run(c, ops))
  {
    if ops != [] {
      var before, op := ops[..|ops| - 1], ops[|ops| - 1];
      AddsInTimeBefore(c, ops);
      InTimeKeepsOrder(c, before);
      RunBounded(c, before);
      match op
      case Add(uid, req) => AddOverdueIff(Run(c, before), uid, req);
      case Remove(uid) => RemoveKeepsOrder(Run(c, before), uid);
      case Turn(fate) => TurnKeepsOrder(Run(c, before), fate);
    }
  }

  /** At every moment of the run, whatever turns with whatever failures follow, the published
      generations ascend. */
  ghost predicate AlwaysInOrder(c: Context, ops: seq<Op>) {
    forall n | 0 <= n <= |ops| :: TurnsSafe(Run(c, ops[..n]))
  }

  /** Over every run, with any failures: publication is in order exactly if no pod is added while an
      item that a newer one has overtaken is still queued. */
  lemma AlwaysInOrderIff(c: Context, ops: seq<Op>)
    requires Initial(c)
    ensures AlwaysInOrder(c, ops) <==> AddsInTime(c, ops)
  {
    if AddsInTime(c, ops) {
      forall n | 0 <= n <= |ops|
        ensures TurnsSafe(Run(c, ops[..n]))
      {
        InTimePrefix(c, ops, n);
        InTimeKeepsOrder(c, ops[..n]);
        TurnsSafeIff(Run(c, ops[..n]));
      }
    } else {
      var i :| 0 <= i < |ops| && ops[i].Add? && Overtaken(Run(c, ops[..i]));
      LateAdd(c, ops, i);
    }
  }

  lemma InTimePrefix(c: Context, ops: seq<Op>, n: nat)
    requires n <= |ops| && AddsInTime(c, ops)
    ensures AddsInTime(c, ops[..n])
  {
    forall i | 0 <= i < n && ops[..n][i].Add?
      ensures !Overtaken(Run(c, ops[..n][..i]))
    {
      assert ops[..n][..i] == ops[..i] && ops[i] == ops[..n][i];
    }
  }

  lemma LateAdd(c: Context, ops: seq<Op>, i: nat)
    requires Initial(c) && i < |ops| && ops[i].Add? && Overtaken(Run(c, ops[..i]))
    ensures !AlwaysInOrder(c, ops)
  {
    var m, r := Run(c, ops[..i]), Run(c, ops[..i + 1]);
    RunStep(c, ops, i);
    RunBounded(c, ops[..i]);
    AddOverdueIff(m, ops[i].uid, ops[i].req);
    if Ascending(r.published) {
      TurnsSafeIff(r);
    } else {
      assert AfterTurns(r, []) == r;
    }
    assert !TurnsSafe(Run(c, ops[..i + 1]));
  }

  /** While no pod is added, lastUpdatedGen is not reset and retries in any order are harmless. */
  lemma {:induction false} RetriesSafeWithoutAdds(c: Context, ops: seq<Op>)
    requires Initial(c)
    requires forall i | 0 <= i < |ops| :: !ops[i].Add?
    ensures AlwaysInOrder(c, ops)
    ensures var r := Run(c, ops);
            && Ascending(r.published)
            && (r.published == [] || r.lastUpdatedGen == LastGeneration(r.published))
  {
    AlwaysInOrderIff(c, ops);
    InTimeKeepsOrder(c, ops);
    if ops != [] {
      RetriesSafeWithoutAdds(c, ops[..|ops| - 1]);
    }
  }

  /** A context whose worker failed on generation 1 and will take generation 2 first. */
  predicate Reordered(c: Context) {
    && c.generation == 2 && c.published == [] && c.lastUpdatedGen == -1 && |c.queue| == 2
    && c.queue[0].spec.generation == 2 && c.queue[1].spec.generation == 1
    && Renderable(c.queue[0]) && Renderable(c.queue[1])
  }

  lemma RunStep(c: Context, ops: seq<Op>, i: nat)
    requires i < |ops|
    ensures Run(c, ops[..i + 1]) == Step(Run(c, ops[..i]), ops[i])
  {
    assert ops[..i + 1][..i] == ops[..i];
  }

  lemma FailuresReorder(ops: seq<Op>)
    requires |ops| >= 4 && ops[..4] == [Add("a", APod()), Turn(SpecFails), Add("b", APod()), Turn(SpecFails)]
    ensures Reordered(Run(Context(0, map[], -1, [], [], map[]), ops[..4]))
  {
    var c, four := Context(0, map[], -1, [], [], map[]), ops[..4];
    assert ops[0] == four[0] && ops[1] == four[1] && ops[2] == four[2] && ops[3] == four[3];
    TwoSteps(c, ops, 0, Add("a", APod()), Turn(SpecFails));
    TwoSteps(c, ops, 2, Add("b", APod()), Turn(SpecFails));
    assert Run(c, ops[..0]) == c;
    FailTwice(c, Run(c, ops[..2]), Run(c, ops[..4]));
  }

  lemma FailTwice(c: Context, m: Context, r: Context)
    requires c == Context(0, map[], -1, [], [], map[])
    requires m == Step(Step(c, Add("a", APod())), Turn(SpecFails))
    requires r == Step(Step(m, Add("b", APod())), Turn(SpecFails))
    ensures Reordered(r)
  {
    FirstFails();
    SecondOvertakes(m);
  }

  lemma TwoSteps(c: Context, ops: seq<Op>, i: nat, x: Op, y: Op)
    requires i + 1 < |ops| && ops[i] == x && ops[i + 1] == y
    ensures Run(c, ops[..i + 2]) == Step(Step(Run(c, ops[..i]), x), y)
  {
    RunStep(c, ops, i);
    RunStep(c, ops, i + 1);
  }

  predicate FailedOnce(c: Context) {
    && c.generation == 1 && c.published == [] && c.lastUpdatedGen == -1 && |c.queue| == 1
    && c.queue[0].spec.generation == 1 && Renderable(c.queue[0])
  }

  lemma FirstFails()
    ensures FailedOnce(Step(Step(Context(0, map[], -1, [], [], map[]), Add("a", APod())), Turn(SpecFails)))
  {
  }

  lemma SecondOvertakes(c: Context)
    requires FailedOnce(c)
    ensures Reordered(Step(Step(c, Add("b", APod())), Turn(SpecFails)))
  {
  }

  lemma OldAfterNew(c: Context)
    requires Reordered(c)
    ensures var specs := Step(Step(Step(c, Turn(Success)), Add("c", APod())), Turn(Success)).published;
            |specs| == 2 && specs[0].generation == 2 && specs[1].generation == 1
  {
  }

  /** A failed attempt followed by another AddPod publishes an old generation over a newer one. */
  lemma ResetLetsOldSpecThrough()
    ensures var c := Context(0, map[], -1, [], [], map[]);
            var ops := [Add("a", APod()), Turn(SpecFails), Add("b", APod()), Turn(SpecFails), Turn(Success),
                        Add("c", APod()), Turn(Success)];
            var specs := Run(c, ops).published;
            Initial(c) && |specs| == 2 && specs[0].generation == 2 && specs[1].generation == 1
  {
    var c := Context(0, map[], -1, [], [], map[]);
    var ops := [Add("a", APod()), Turn(SpecFails), Add("b", APod()), Turn(SpecFails), Turn(Success),
                Add("c", APod()), Turn(Success)];
    FailuresReorder(ops);
    OldAfterNew(Run(c, ops[..4]));
    RunStep(c, ops, 4);
    RunStep(c, ops, 5);
    RunStep(c, ops, 6);
    assert ops[..7] == ops;
  }
}
