/** Registering one pod with the I/O service (pkg/agent/disk/engine.go: RegisterPod, ProcessNriData and
    ProcessDiskCrData; `Engine` has the object they are methods of).

    Two sources tell the agent what to do with a pod: events from the container runtime (NRI) and the
    pod lists from the aggregator (CR).  An operation is carried out, once, when both have asked for it.
    Operation masks are modelled as sets of bits. */
module Rendezvous {
  import opened IoTypes

  datatype Bit = StopPod | RunPod | StopContainer | StartContainer

  type Bits = set<Bit>

  datatype RegInfo = RegInfo(cgroup: string, nri: Bits, cr: Bits, devs: seq<DevId>)

  /** What is sent to the I/O service about a pod. */
  datatype Call = Register(cgroup: string, devs: seq<DevId>) | Unregister

  predicate Ready(i: RegInfo) {
    i.cgroup != "" && i.devs != [] && i.nri * i.cr != {}
  }

  /** RegisterPod, for one pod: the calls it makes and what remains of the pod's entry. */
  function CallsFor(i: RegInfo): seq<Call> {
    var op := i.nri * i.cr;
    if !Ready(i) then []
    else (if RunPod in op then [Register(i.cgroup, i.devs)] else []) + (if StopPod in op then [Unregister] else [])
  }

  /** The pod is unregistered. */
  predicate Stops(i: RegInfo) {
    Ready(i) && StopPod in i.nri * i.cr
  }

  function Left(i: RegInfo): Option<RegInfo> {
    var op := i.nri * i.cr;
    if !Ready(i) then Some(i)
    else if StopPod in op then None
    else Some(i.(nri := i.nri - op, cr := i.cr - op))
  }

  /** An entry after a runtime event about its pod. */
  function Noticed(o: Option<RegInfo>, cgroup: string, ops: Bits): RegInfo {
    match o
    case None => RegInfo(cgroup, ops, {}, [])
    case Some(i) => i.(cgroup := cgroup, nri := i.nri + ops)
  }

  /** An entry after a pod list that has the pod on the devices `devs`. */
  function Listed(o: Option<RegInfo>, devs: seq<DevId>): Option<RegInfo> {
    if devs == [] then
      match o
      case None => None
      case Some(i) => Some(i.(cr := i.cr + {StopPod}))
    else
      match o
      case None => Some(RegInfo("", {}, {RunPod}, devs))
      case Some(i) => Some(i.(devs := i.devs + devs, cr := i.cr + {RunPod}))
  }

  // ---------------------------------------------------------------- one pod

  /** What happens to a pod: a runtime event, a list with its devices (none if it is not listed), or
      a RegisterPod because of other pods. */
  datatype Happening = Nri(cgroup: string, ops: Bits) | Cr(devs: seq<DevId>) | Idle

  datatype PodState = PodState(entry: Option<RegInfo>, calls: seq<Call>)

  function Settled(o: Option<RegInfo>, calls: seq<Call>): PodState {
    match o
    case None => PodState(None, calls)
    case Some(i) => PodState(Left(i), calls + CallsFor(i))
  }

  function Asked(o: Option<RegInfo>, h: Happening): Option<RegInfo> {
    match h
    case Nri(cgroup, ops) => Some(Noticed(o, cgroup, ops))
    case Cr(devs) => Listed(o, devs)
    case Idle => o
  }

  predicate UnregistersAt(o: Option<RegInfo>, h: Happening) {
    Asked(o, h).Some? && Stops(Asked(o, h).value)
  }

  function StepPod(s: PodState, h: Happening): PodState {
    Settled(Asked(s.entry, h), s.calls)
  }

  function After(hs: seq<Happening>): PodState {
    if hs == [] then PodState(None, []) else StepPod(After(hs[..|hs| - 1]), hs[|hs| - 1])
  }

  lemma ListedInTwo(o: Option<RegInfo>, devs: seq<DevId>)
    ensures Listed(o, devs) == match WithDevs(o, devs)
                               case None => None
                               case Some(i) => Some(i.(cr := i.cr + {if devs != [] then RunPod else StopPod}))
  {
    assert {} + {RunPod} == {RunPod};
  }

  lemma OneMoreDev(o: Option<RegInfo>, devs: seq<DevId>, dev: DevId)
    ensures WithDevs(o, devs + [dev]) == WithDevs(WithDevs(o, devs), [dev])
  {
    if devs == [] {
      assert devs + [dev] == [dev];
    } else if o.Some? {
      assert o.value.devs + (devs + [dev]) == o.value.devs + devs + [dev];
    }
  }

  function WithDevs(o: Option<RegInfo>, devs: seq<DevId>): Option<RegInfo> {
    if devs == [] then o
    else
      match o
      case None => Some(RegInfo("", {}, {}, devs))
      case Some(i) => Some(i.(devs := i.devs + devs))
  }

  // ---------------------------------------------------------------- asked for by both

  predicate Asks(h: Happening, b: Bit) {
    match h
    case Nri(_, ops) => b in ops
    case Cr(_) => false
    case Idle => false
  }

  /** How often the runtime asked for an operation. */
  function NriCount(hs: seq<Happening>, b: Bit): nat {
    if hs == [] then 0
    else NriCount(hs[..|hs| - 1], b) + if Asks(hs[|hs| - 1], b) then 1 else 0
  }

  /** How often a list had the pod, or lacked it. */
  function CrCount(hs: seq<Happening>, present: bool): nat {
    if hs == [] then 0
    else
      var h := hs[|hs| - 1];
      CrCount(hs[..|hs| - 1], present) + if h.Cr? && (h.devs != []) == present then 1 else 0
  }

  function Registers(calls: seq<Call>): nat {
    |calls| - Unregisters(calls)
  }

  function Unregisters(calls: seq<Call>): (n: nat)
    ensures n <= |calls|
  {
    if calls == [] then 0
    else Unregisters(calls[..|calls| - 1]) + if calls[|calls| - 1].Unregister? then 1 else 0
  }

  lemma {:induction false} UnregistersConcat(calls: seq<Call>, more: seq<Call>)
    ensures Unregisters(calls + more) == Unregisters(calls) + Unregisters(more)
  {
    if more == [] {
      assert calls + more == calls;
    } else {
      var last := |more| - 1;
      assert (calls + more)[..|calls| + last] == calls + more[..last];
      UnregistersConcat(calls, more[..last]);
    }
  }

  function Has(bits: Bits, b: Bit): nat {
    if b in bits then 1 else 0
  }

  /** How often each source asked to run and to stop the pod. */
  datatype Asking = Asking(ran: nat, had: nat, stopped: nat, lacked: nat)

  function Counts(hs: seq<Happening>): Asking {
    Asking(NriCount(hs, RunPod), CrCount(hs, true), NriCount(hs, StopPod), CrCount(hs, false))
  }

  /** Pending bits are requests not yet used up. */
  predicate Within(a: Asking, s: PodState) {
    var nri := if s.entry.Some? then s.entry.value.nri else {};
    var cr := if s.entry.Some? then s.entry.value.cr else {};
    && Registers(s.calls) + Has(nri, RunPod) <= a.ran
    && Registers(s.calls) + Has(cr, RunPod) <= a.had
    && Unregisters(s.calls) + Has(nri, StopPod) <= a.stopped
    && Unregisters(s.calls) + Has(cr, StopPod) <= a.lacked
    && cr <= {RunPod, StopPod}
  }

  function OneMore(a: Asking, h: Happening): Asking {
    match h
    case Nri(_, ops) => a.(ran := a.ran + Has(ops, RunPod), stopped := a.stopped + Has(ops, StopPod))
    case Cr(devs) => if devs != [] then a.(had := a.had + 1) else a.(lacked := a.lacked + 1)
    case Idle => a
  }

  lemma AskedWithin(a: Asking, s: PodState, h: Happening)
    requires Within(a, s)
    ensures Within(OneMore(a, h), PodState(Asked(s.entry, h), s.calls))
  {
  }

  /** Settling uses up, for each call, one request of each source. */
  lemma SettledWithin(a: Asking, o: Option<RegInfo>, calls: seq<Call>)
    requires Within(a, PodState(o, calls))
    ensures Within(a, Settled(o, calls))
  {
    if o.Some? {
      var i := o.value;
      UnregistersConcat(calls, CallsFor(i));
      CallsCounted(i);
    }
  }

  lemma CallsCounted(i: RegInfo)
    ensures Registers(CallsFor(i)) == if Ready(i) then Has(i.nri * i.cr, RunPod) else 0
    ensures Unregisters(CallsFor(i)) == if Ready(i) then Has(i.nri * i.cr, StopPod) else 0
  {
    var op := i.nri * i.cr;
    var first: seq<Call> := if RunPod in op then [Register(i.cgroup, i.devs)] else [];
    var second: seq<Call> := if StopPod in op then [Unregister] else [];
    UnregistersConcat(first, second);
    CountOneCall(Register(i.cgroup, i.devs));
    CountOneCall(Unregister);
  }

  lemma CountOneCall(c: Call)
    ensures Unregisters([c]) == if c.Unregister? then 1 else 0
  {
    assert [c][..0] == [];
  }

  /** Over every interleaving, a pod is registered at most as often as the runtime ran it, and at most
      as often as a list had it; and unregistered at most as often as the runtime stopped it, and as a
      list lacked it. */
  lemma {:induction false} CallsWithinRequests(hs: seq<Happening>)
    ensures Within(Counts(hs), After(hs))
    ensures var calls := After(hs).calls;
            && Registers(calls) <= NriCount(hs, RunPod) && Registers(calls) <= CrCount(hs, true)
            && Unregisters(calls) <= NriCount(hs, StopPod) && Unregisters(calls) <= CrCount(hs, false)
  {
    if hs != [] {
      var before, h := hs[..|hs| - 1], hs[|hs| - 1];
      CallsWithinRequests(before);
      AskedWithin(Counts(before), After(before), h);
      SettledWithin(Counts(hs), Asked(After(before).entry, h), After(before).calls);
    }
  }

  /** A RegisterPod because of other pods does nothing to this one. */
  lemma NothingRepeated(hs: seq<Happening>)
    ensures After(hs + [Idle]) == After(hs)
  {
    assert (hs + [Idle])[..|hs|] == hs;
    if hs != [] {
      var before := After(hs[..|hs| - 1]);
      SettledIsQuiet(Asked(before.entry, hs[|hs| - 1]), before.calls);
    }
  }

  lemma SettledIsQuiet(o: Option<RegInfo>, calls: seq<Call>)
    ensures var s := Settled(o, calls); Settled(s.entry, s.calls) == s
  {
    if o.Some? {
      var op := o.value.nri * o.value.cr;
      assert (o.value.nri - op) * (o.value.cr - op) == {};
    }
  }

  // ---------------------------------------------------------------- registered before unregistered

  /** The runtime's events about the pod, in order. */
  function NriPart(hs: seq<Happening>): seq<Bits> {
    if hs == [] then []
    else NriPart(hs[..|hs| - 1]) + if hs[|hs| - 1].Nri? then [hs[|hs| - 1].ops] else []
  }

  predicate Ran(ns: seq<Bits>) {
    ns != [] && (RunPod in ns[|ns| - 1] || Ran(ns[..|ns| - 1]))
  }

  /** The pod is not stopped before it runs. */
  predicate RunsFirst(ns: seq<Bits>) {
    ns != [] ==> RunsFirst(ns[..|ns| - 1]) && (StopPod in ns[|ns| - 1] ==> Ran(ns))
  }

  predicate RegisterFirst(calls: seq<Call>) {
    calls != [] ==> calls[0].Register?
  }

  /** While nothing has been called, both sources' requests to run are still pending. */
  predicate Pending(ran: bool, s: PodState) {
    s.calls == [] ==>
      && (ran ==> s.entry.Some? && RunPod in s.entry.value.nri)
      && (s.entry.Some? ==>
            && (StopPod in s.entry.value.nri ==> RunPod in s.entry.value.nri)
            && (s.entry.value.devs != [] ==> RunPod in s.entry.value.cr))
  }

  lemma AskedPending(ran: bool, s: PodState, h: Happening)
    requires Pending(ran, s) && (Asks(h, StopPod) ==> ran || Asks(h, RunPod))
    ensures Pending(ran || Asks(h, RunPod), PodState(Asked(s.entry, h), s.calls))
  {
  }

  lemma SettledPending(ran: bool, o: Option<RegInfo>, calls: seq<Call>)
    requires Pending(ran, PodState(o, calls)) && RegisterFirst(calls)
    ensures Pending(ran, Settled(o, calls)) && RegisterFirst(Settled(o, calls).calls)
  {
  }

  lemma NriPartStep(hs: seq<Happening>)
    requires hs != []
    ensures var was, h := NriPart(hs[..|hs| - 1]), hs[|hs| - 1];
            && (Ran(NriPart(hs)) <==> Ran(was) || Asks(h, RunPod))
            && (RunsFirst(NriPart(hs)) <==> RunsFirst(was) && (Asks(h, StopPod) ==> Ran(NriPart(hs))))
  {
    var was, h, now := NriPart(hs[..|hs| - 1]), hs[|hs| - 1], NriPart(hs);
    if h.Nri? {
      assert now[..|now| - 1] == was;
    } else {
      assert now == was;
    }
  }

  /** If the runtime does not stop the pod before it runs, the first call about it registers it. */
  lemma {:induction false} RegisteredFirst(hs: seq<Happening>)
    requires RunsFirst(NriPart(hs))
    ensures Pending(Ran(NriPart(hs)), After(hs)) && RegisterFirst(After(hs).calls)
  {
    if hs != [] {
      var before, h := hs[..|hs| - 1], hs[|hs| - 1];
      NriPartStep(hs);
      RegisteredFirst(before);
      AskedPending(Ran(NriPart(before)), After(before), h);
      SettledPending(Ran(NriPart(hs)), Asked(After(before).entry, h), After(before).calls);
    }
  }

  function AllBits(ns: seq<Bits>): Bits {
    if ns == [] then {} else AllBits(ns[..|ns| - 1]) + ns[|ns| - 1]
  }

  /** The entry holds these requests and no list has been processed since the last call. */
  predicate Collected(s: PodState, nri: Bits, devs: seq<DevId>, calls: seq<Call>) {
    s.calls == calls && s.entry.Some? && s.entry.value.cgroup != "" && s.entry.value.nri == nri
    && s.entry.value.cr == {} && s.entry.value.devs == devs
  }

  /** As long as no list comes, runtime events are collected and nothing is called. */
  lemma {:induction false} Collect(hs: seq<Happening>, nri: Bits, devs: seq<DevId>, calls: seq<Call>, ns: seq<Bits>)
    returns (more: seq<Happening>)
    requires Collected(After(hs), nri, devs, calls)
    ensures NriPart(more) == NriPart(hs) + ns && Collected(After(more), nri + AllBits(ns), devs, calls)
  {
    if ns == [] {
      more := hs;
      assert nri + {} == nri;
    } else {
      var last := |ns| - 1;
      var before := Collect(hs, nri, devs, calls, ns[..last]);
      more := before + [Nri("c", ns[last])];
      assert more[..|before|] == before;
      assert nri + AllBits(ns) == nri + AllBits(ns[..last]) + ns[last];
      assert ns == ns[..last] + [ns[last]];
    }
  }

  /** Runtime events about a pod the agent has no entry of. */
  lemma CollectAnew(hs: seq<Happening>, ns: seq<Bits>) returns (more: seq<Happening>)
    requires After(hs).entry.None? && ns != []
    ensures NriPart(more) == NriPart(hs) + ns && Collected(After(more), AllBits(ns), [], After(hs).calls)
  {
    var first := hs + [Nri("c", ns[0])];
    assert first[..|hs|] == hs;
    assert NriPart(first) == NriPart(hs) + [ns[0]];
    more := Collect(first, ns[0], [], After(hs).calls, ns[1..]);
    assert [ns[0]] + ns[1..] == ns;
    AllBitsFirst(ns);
  }

  lemma {:induction false} AllBitsFirst(ns: seq<Bits>)
    requires ns != []
    ensures AllBits(ns) == ns[0] + AllBits(ns[1..])
  {
    if |ns| > 1 {
      var last := |ns| - 1;
      AllBitsFirst(ns[..last]);
      assert ns[..last][1..] == ns[1..][..last - 1];
    } else {
      assert ns[..0] == [];
    }
  }

  lemma {:induction false} RanIff(ns: seq<Bits>)
    ensures Ran(ns) <==> RunPod in AllBits(ns)
  {
    if ns != [] {
      RanIff(ns[..|ns| - 1]);
    }
  }

  /** A list that has the pod, and one that lacks it. */
  function Appear(hs: seq<Happening>): seq<Happening> {
    hs + [Cr(["d"])]
  }

  function Vanish(hs: seq<Happening>): seq<Happening> {
    hs + [Cr([])]
  }

  lemma AppearStep(hs: seq<Happening>)
    ensures NriPart(Appear(hs)) == NriPart(hs) && After(Appear(hs)) == StepPod(After(hs), Cr(["d"]))
    ensures NriPart(Vanish(hs)) == NriPart(hs) && After(Vanish(hs)) == StepPod(After(hs), Cr([]))
  {
    assert Appear(hs)[..|hs|] == hs && Vanish(hs)[..|hs|] == hs;
  }

  /** A pod that was stopped and never run: listing it does nothing, unlisting it unregisters it. */
  lemma StoppedOnly(hs: seq<Happening>, nri: Bits, calls: seq<Call>) returns (more: seq<Happening>)
    requires Collected(After(hs), nri, [], calls) && StopPod in nri && RunPod !in nri
    ensures NriPart(more) == NriPart(hs) && After(more).calls == calls + [Unregister]
  {
    AppearStep(hs);
    var listed := Appear(hs);
    assert nri * {RunPod} == {};
    assert After(listed).calls == calls && After(listed).entry.value.cr == {RunPod};
    AppearStep(listed);
    more := Vanish(listed);
    assert StopPod in nri * {RunPod, StopPod} && RunPod !in nri * {RunPod, StopPod};
    assert {RunPod} + {StopPod} == {RunPod, StopPod};
  }

  lemma {:induction false} EarlyStop(ns: seq<Bits>) returns (n: nat)
    requires !RunsFirst(ns)
    ensures n < |ns| && StopPod in ns[n] && !Ran(ns[..n + 1])
  {
    var last := |ns| - 1;
    if RunsFirst(ns[..last]) {
      n := last;
      assert ns[..n + 1] == ns;
    } else {
      n := EarlyStop(ns[..last]);
      assert ns[..last][..n + 1] == ns[..n + 1];
    }
  }

  lemma {:induction false} RunsFirstPrefix(ns: seq<Bits>, was: seq<Bits>)
    requires RunsFirst(ns) && was <= ns
    ensures RunsFirst(was)
  {
    if |was| < |ns| {
      RunsFirstPrefix(ns[..|ns| - 1], was);
    } else {
      assert was == ns;
    }
  }

  lemma UnregisteredFirst(ns: seq<Bits>) returns (hs: seq<Happening>)
    requires !RunsFirst(ns)
    ensures NriPart(hs) <= ns && After(hs).calls == [Unregister]
  {
    var n := EarlyStop(ns);
    var early := ns[..n + 1];
    var collected := CollectAnew([], early);
    RanIff(early);
    hs := StoppedOnly(collected, AllBits(early), []);
    assert NriPart([]) + early == early;
  }

  ghost predicate AlwaysRegisterFirst(ns: seq<Bits>) {
    forall hs | NriPart(hs) <= ns :: RegisterFirst(After(hs).calls)
  }

  /** Whatever lists come in between, every Unregister is preceded by a Register exactly if the
      runtime does not stop the pod before it runs. */
  lemma AlwaysRegisterFirstIff(ns: seq<Bits>)
    ensures AlwaysRegisterFirst(ns) <==> RunsFirst(ns)
  {
    if RunsFirst(ns) {
      forall hs | NriPart(hs) <= ns
        ensures RegisterFirst(After(hs).calls)
      {
        RunsFirstPrefix(ns, NriPart(hs));
        RegisteredFirst(hs);
      }
    } else {
      var hs := UnregisteredFirst(ns);
    }
  }

  // ---------------------------------------------------------------- registered as often as unregistered

  function StopCount(ns: seq<Bits>): nat {
    if ns == [] then 0 else StopCount(ns[..|ns| - 1]) + Has(ns[|ns| - 1], StopPod)
  }

  lemma {:induction false} StopsCounted(hs: seq<Happening>)
    ensures NriCount(hs, StopPod) == StopCount(NriPart(hs))
  {
    if hs != [] {
      StopsCounted(hs[..|hs| - 1]);
      var was, h, now := NriPart(hs[..|hs| - 1]), hs[|hs| - 1], NriPart(hs);
      if h.Nri? {
        assert now[..|now| - 1] == was;
      } else {
        assert now == was;
      }
    }
  }

  lemma {:induction false} StopCountPrefix(ns: seq<Bits>, was: seq<Bits>)
    requires was <= ns
    ensures StopCount(was) <= StopCount(ns)
  {
    if |was| < |ns| {
      StopCountPrefix(ns[..|ns| - 1], was);
    } else {
      assert was == ns;
    }
  }

  /** Every runtime event carries one operation on the pod. */
  predicate SingleOps(ns: seq<Bits>) {
    forall n | 0 <= n < |ns| :: !(RunPod in ns[n] && StopPod in ns[n])
  }

  lemma {:induction false} SomeStop(ns: seq<Bits>) returns (n: nat)
    requires StopCount(ns) > 0
    ensures n < |ns| && StopPod in ns[n] && StopCount(ns[..n]) == StopCount(ns) - 1
  {
    var last := |ns| - 1;
    if StopPod in ns[last] {
      n := last;
    } else {
      n := SomeStop(ns[..last]);
      assert ns[..last][..n] == ns[..n];
    }
  }

  /** Everything up to the first stop, a list with the pod, everything up to the second stop, a list
      without the pod: the pod is registered and unregistered once. */
  lemma UnregisteredOnce(until: seq<Bits>, between: seq<Bits>) returns (hs: seq<Happening>, c: Call)
    requires until != [] && Ran(until) && StopPod in until[|until| - 1]
    ensures NriPart(hs) == until + between && c.Register? && After(hs) == PodState(None, [c, Unregister])
  {
    RanIff(until);
    var a := CollectAnew([], until);
    assert NriPart([]) + until == until;
    AppearStep(a);
    RegisteredNow(a, AllBits(until));
    c := Register(After(a).entry.value.cgroup, ["d"]);
    var b := Collect(Appear(a), AllBits(until) - {RunPod}, ["d"], [c], between);
    AppearStep(b);
    VanishedNow(b, AllBits(until) - {RunPod} + AllBits(between), [c]);
    hs := Vanish(b);
  }

  /** The second stop: the request to run that came in between was lost together with the entry, and
      the pod is unregistered again. */
  lemma UnregisteredTwice(ns: seq<Bits>) returns (hs: seq<Happening>)
    requires RunsFirst(ns) && SingleOps(ns) && StopCount(ns) > 1
    ensures NriPart(hs) <= ns && Registers(After(hs).calls) == 1 && Unregisters(After(hs).calls) == 2
  {
    var until, between, stop := TwoStops(ns);
    var once, c := UnregisteredOnce(until, between);
    hs := StoppedAgain(once, c, stop);
    CountThree(c);
  }

  /** The last two stops, with what comes before and between them. */
  lemma TwoStops(ns: seq<Bits>) returns (until: seq<Bits>, between: seq<Bits>, stop: Bits)
    requires RunsFirst(ns) && SingleOps(ns) && StopCount(ns) > 1
    ensures until + between + [stop] <= ns && until != [] && Ran(until)
    ensures StopPod in until[|until| - 1] && StopPod in stop && RunPod !in stop
  {
    var j := SomeStop(ns);
    var i := SomeStop(ns[..j]);
    until, between, stop := ns[..i + 1], ns[i + 1..j], ns[j];
    RunsFirstPrefix(ns, until);
    assert until + between == ns[..j];
    assert ns[..j] + [ns[j]] == ns[..j + 1];
  }

  lemma StoppedAgain(once: seq<Happening>, c: Call, ops: Bits) returns (hs: seq<Happening>)
    requires After(once) == PodState(None, [c, Unregister]) && StopPod in ops && RunPod !in ops
    ensures NriPart(hs) == NriPart(once) + [ops] && After(hs).calls == [c, Unregister, Unregister]
  {
    var again := CollectAnew(once, [ops]);
    assert AllBits([ops]) == ops by {
      assert [ops][..0] == [];
    }
    hs := StoppedOnly(again, ops, [c, Unregister]);
  }

  lemma CountThree(c: Call)
    requires c.Register?
    ensures Unregisters([c, Unregister, Unregister]) == 2
  {
    var one, two, three := [c], [c, Unregister], [c, Unregister, Unregister];
    assert one[..0] == [] && two[..1] == one && three[..2] == two;
    assert Unregisters(one) == 0;
    assert Unregisters(two) == 1;
  }

  lemma RegisteredNow(hs: seq<Happening>, nri: Bits)
    requires Collected(After(hs), nri, [], []) && RunPod in nri
    ensures Collected(After(Appear(hs)), nri - {RunPod}, ["d"], [Register(After(hs).entry.value.cgroup, ["d"])])
  {
    AppearStep(hs);
    assert nri * {RunPod} == {RunPod} && {} + {RunPod} == {RunPod} && [] + ["d"] == ["d"];
  }

  lemma VanishedNow(hs: seq<Happening>, nri: Bits, calls: seq<Call>)
    requires Collected(After(hs), nri, ["d"], calls) && StopPod in nri
    ensures After(Vanish(hs)) == PodState(None, calls + [Unregister])
  {
    AppearStep(hs);
    assert nri * {StopPod} == {StopPod} && {} + {StopPod} == {StopPod};
  }

  ghost predicate NeverExceeds(ns: seq<Bits>) {
    forall hs | NriPart(hs) <= ns :: Unregisters(After(hs).calls) <= Registers(After(hs).calls)
  }

  lemma {:induction false} FirstCounts(calls: seq<Call>)
    requires calls != [] && calls[0].Register?
    ensures Registers(calls) >= 1
  {
    if |calls| == 1 {
      assert calls[..0] == [];
    } else {
      FirstCounts(calls[..|calls| - 1]);
    }
  }

  /** Whatever lists come in between, a pod is never unregistered more often than registered exactly
      if the runtime stops it at most once, and not before it runs. */
  lemma NeverExceedsIff(ns: seq<Bits>)
    requires SingleOps(ns)
    ensures NeverExceeds(ns) <==> RunsFirst(ns) && StopCount(ns) <= 1
  {
    if !RunsFirst(ns) {
      var hs := UnregisteredFirst(ns);
      assert Unregisters([Unregister]) == 1 by {
        assert [Unregister][..0] == [];
      }
    } else if StopCount(ns) > 1 {
      var hs := UnregisteredTwice(ns);
    } else {
      forall hs | NriPart(hs) <= ns
        ensures Unregisters(After(hs).calls) <= Registers(After(hs).calls)
      {
        CallsWithinRequests(hs);
        StopsCounted(hs);
        StopCountPrefix(ns, NriPart(hs));
        RunsFirstPrefix(ns, NriPart(hs));
        RegisteredFirst(hs);
        if After(hs).calls != [] {
          FirstCounts(After(hs).calls);
        }
      }
    }
  }

  // ---------------------------------------------------------------- when a pod is unregistered

  /** What unregistering a pod takes: a list that lacked it, a runtime event that stopped it, and a list
      that gave it devices. */
  datatype Cause = Lacked | Ended | Placed

  predicate Gives(c: Cause, o: Option<RegInfo>, h: Happening) {
    match c
    case Lacked => h == Cr([]) && o.Some?
    case Ended => Asks(h, StopPod)
    case Placed => h.Cr? && h.devs != []
  }

  predicate Holds(c: Cause, o: Option<RegInfo>) {
    && o.Some?
    && match c
       case Lacked => StopPod in o.value.cr
       case Ended => StopPod in o.value.nri
       case Placed => o.value.devs != []
  }

  lemma AskedHolds(c: Cause, o: Option<RegInfo>, h: Happening)
    ensures Holds(c, Asked(o, h)) <==> Holds(c, o) || Gives(c, o, h)
  {
  }

  /** Only unregistering uses the causes up. */
  lemma SettledHolds(c: Cause, o: Option<RegInfo>, calls: seq<Call>)
    ensures var stops := o.Some? && Stops(o.value);
            && Unregisters(Settled(o, calls).calls) == Unregisters(calls) + (if stops then 1 else 0)
            && (Holds(c, Settled(o, calls).entry) <==> Holds(c, o) && !stops)
  {
    if o.Some? {
      UnregistersConcat(calls, CallsFor(o.value));
      CallsCounted(o.value);
    }
  }

  function UnregisterCount(hs: seq<Happening>): nat {
    Unregisters(After(hs).calls)
  }

  /** The cause was given at step `i` and nothing was unregistered from that step on. */
  predicate Since(c: Cause, hs: seq<Happening>, i: nat)
    requires i < |hs|
  {
    Gives(c, After(hs[..i]).entry, hs[i]) && UnregisterCount(hs[..i]) == UnregisterCount(hs)
  }

  predicate Standing(c: Cause, hs: seq<Happening>) {
    exists i | 0 <= i < |hs| :: Since(c, hs, i)
  }

  lemma StepCounts(hs: seq<Happening>, h: Happening)
    ensures UnregisterCount(hs + [h]) == UnregisterCount(hs) + if UnregistersAt(After(hs).entry, h) then 1 else 0
  {
    assert (hs + [h])[..|hs|] == hs;
    SettledHolds(Lacked, Asked(After(hs).entry, h), After(hs).calls);
  }

  lemma {:induction false} CountGrows(hs: seq<Happening>, i: nat)
    requires i <= |hs|
    ensures UnregisterCount(hs[..i]) <= UnregisterCount(hs)
  {
    if i < |hs| {
      var last := |hs| - 1;
      CountGrows(hs[..last], i);
      assert hs[..last][..i] == hs[..i] && hs == hs[..last] + [hs[last]];
      StepCounts(hs[..last], hs[last]);
    } else {
      assert hs[..i] == hs;
    }
  }

  lemma StandingStep(c: Cause, hs: seq<Happening>, h: Happening)
    ensures Standing(c, hs + [h]) <==>
            !UnregistersAt(After(hs).entry, h) && (Standing(c, hs) || Gives(c, After(hs).entry, h))
  {
    var more := hs + [h];
    assert more[..|hs|] == hs;
    StepCounts(hs, h);
    forall i | 0 <= i < |hs|
      ensures UnregistersAt(After(hs).entry, h) ==> !Since(c, more, i)
      ensures !UnregistersAt(After(hs).entry, h) ==> (Since(c, more, i) <==> Since(c, hs, i))
    {
      assert more[..i] == hs[..i];
      CountGrows(hs, i);
    }
    if !UnregistersAt(After(hs).entry, h) && Standing(c, hs) {
      var i :| 0 <= i < |hs| && Since(c, hs, i);
      assert Since(c, more, i);
    }
    if !UnregistersAt(After(hs).entry, h) && Gives(c, After(hs).entry, h) {
      assert Since(c, more, |hs|);
    }
  }

  lemma {:induction false} StandingIff(c: Cause, hs: seq<Happening>)
    ensures Holds(c, After(hs).entry) <==> Standing(c, hs)
  {
    if hs != [] {
      var before, h := hs[..|hs| - 1], hs[|hs| - 1];
      assert hs == before + [h];
      StandingIff(c, before);
      StandingStep(c, before, h);
      AskedHolds(c, After(before).entry, h);
      SettledHolds(c, Asked(After(before).entry, h), After(before).calls);
    }
  }

  /** Runtime events come with a cgroup, whose path starts with the file system it is in. */
  predicate Rooted(hs: seq<Happening>) {
    forall i | 0 <= i < |hs| :: hs[i].Nri? ==> hs[i].cgroup != ""
  }

  predicate Grounded(o: Option<RegInfo>) {
    o.Some? && o.value.nri != {} ==> o.value.cgroup != ""
  }

  lemma {:induction false} RootedGrounds(hs: seq<Happening>)
    requires Rooted(hs)
    ensures Grounded(After(hs).entry)
  {
    if hs != [] {
      RootedGrounds(hs[..|hs| - 1]);
    }
  }

  /** The cause stands by the time `h` has happened. */
  predicate StandsAt(c: Cause, hs: seq<Happening>, h: Happening) {
    Standing(c, hs) || Gives(c, After(hs).entry, h)
  }

  lemma StandsAtIff(c: Cause, hs: seq<Happening>, h: Happening)
    ensures Holds(c, Asked(After(hs).entry, h)) <==> StandsAt(c, hs, h)
  {
    StandingIff(c, hs);
    AskedHolds(c, After(hs).entry, h);
  }

  lemma StopsIff(o: Option<RegInfo>)
    requires Grounded(o)
    ensures o.Some? && Stops(o.value) <==> Holds(Lacked, o) && Holds(Ended, o) && Holds(Placed, o)
  {
    if Holds(Lacked, o) && Holds(Ended, o) {
      assert StopPod in o.value.nri * o.value.cr;
    }
  }

  lemma AskedGrounded(hs: seq<Happening>, h: Happening)
    requires Rooted(hs) && Rooted([h])
    ensures Grounded(Asked(After(hs).entry, h))
  {
    RootedGrounds(hs);
    assert h == [h][0];
  }

  /** Exactly when a pod is unregistered: by now a list has lacked it while the engine had an entry of
      it, the runtime has stopped it, and a list has given it devices, each since the pod was last
      unregistered. */
  lemma UnregistersIff(hs: seq<Happening>, h: Happening)
    requires Rooted(hs) && Rooted([h])
    ensures UnregistersAt(After(hs).entry, h) <==>
            StandsAt(Lacked, hs, h) && StandsAt(Ended, hs, h) && StandsAt(Placed, hs, h)
    ensures UnregistersAt(After(hs).entry, h) <==> UnregisterCount(hs + [h]) > UnregisterCount(hs)
  {
    StepCounts(hs, h);
    AskedGrounded(hs, h);
    StopsIff(Asked(After(hs).entry, h));
    StandsAtIff(Lacked, hs, h);
    StandsAtIff(Ended, hs, h);
    StandsAtIff(Placed, hs, h);
  }

  /** The last list, at step `j`, has the pod. */
  predicate LastListHas(hs: seq<Happening>, j: nat) {
    && j < |hs| && hs[j].Cr? && hs[j].devs != []
    && forall i | j < i < |hs| :: !hs[i].Cr?
  }

  lemma LackedBefore(hs: seq<Happening>, h: Happening, j: nat)
    requires LastListHas(hs + [h], j)
    ensures StandsAt(Lacked, hs, h) <==> exists i | 0 <= i < j :: i < |hs| && Since(Lacked, hs, i)
  {
    var more := hs + [h];
    assert more[|hs|] == h;
    forall i | 0 <= i < |hs| && Since(Lacked, hs, i)
      ensures i < j
    {
      assert more[i] == hs[i];
    }
  }

  lemma PlacedSince(hs: seq<Happening>, h: Happening, j: nat, i: nat)
    requires LastListHas(hs + [h], j) && i < j && Since(Lacked, hs, i)
    ensures StandsAt(Placed, hs, h)
  {
    var more := hs + [h];
    if j < |hs| {
      CountBetween(hs, i, j);
      assert more[j] == hs[j];
      assert Since(Placed, hs, j);
    } else {
      assert more[j] == h;
    }
  }

  /** A pod that the last list has is unregistered exactly if an earlier list lacked it while the engine
      had an entry of it, the runtime has stopped it, and it was not unregistered since. */
  lemma ListedUnregistersIff(hs: seq<Happening>, h: Happening, j: nat)
    requires Rooted(hs) && Rooted([h]) && LastListHas(hs + [h], j)
    ensures UnregistersAt(After(hs).entry, h) <==>
            && (exists i | 0 <= i < j :: i < |hs| && Since(Lacked, hs, i))
            && StandsAt(Ended, hs, h)
  {
    UnregistersIff(hs, h);
    LackedBefore(hs, h, j);
    if i: nat :| i < j && i < |hs| && Since(Lacked, hs, i) {
      PlacedSince(hs, h, j, i);
    }
  }

  lemma CountBetween(hs: seq<Happening>, i: nat, j: nat)
    requires i <= j <= |hs|
    ensures UnregisterCount(hs[..i]) <= UnregisterCount(hs[..j]) <= UnregisterCount(hs)
  {
    assert hs[..j][..i] == hs[..i];
    CountGrows(hs[..j], i);
    CountGrows(hs, j);
  }

  /** A list lacks the pod between the event that runs it and the first list that has it: when it
      stops it is unregistered, although the last list has it. */
  lemma ListedPodUnregistered()
    ensures var hs := [Nri("c", {RunPod}), Cr([]), Cr(["d"])];
            && LastListHas(hs + [Nri("c", {StopPod})], 2)
            && UnregistersAt(After(hs).entry, Nri("c", {StopPod}))
            && After(hs + [Nri("c", {StopPod})]).calls == [Register("c", ["d"]), Unregister]
  {
    var one: seq<Happening> := [Nri("c", {RunPod})];
    var two, three := one + [Cr([])], one + [Cr([]), Cr(["d"])];
    var four := three + [Nri("c", {StopPod})];
    assert one[..0] == [] && two[..1] == one && three[..2] == two && four[..3] == three;
    assert {RunPod} * {} == {} && {} + {StopPod} == {StopPod};
    assert After(one).entry == Some(RegInfo("c", {RunPod}, {}, []));
    assert After(two).entry == Some(RegInfo("c", {RunPod}, {StopPod}, []));
    assert {RunPod} * ({StopPod} + {RunPod}) == {RunPod};
    assert {RunPod} - {RunPod} == {} && {StopPod} + {RunPod} - {RunPod} == {StopPod};
    assert [] + ["d"] == ["d"];
    assert After(three) == PodState(Some(RegInfo("c", {}, {StopPod}, ["d"])), [Register("c", ["d"])]);
    assert {StopPod} * {StopPod} == {StopPod} && {} + {StopPod} == {StopPod};
  }

  // ---------------------------------------------------------------- what a call says

  /** The cgroup of the last runtime event about the pod. */
  function LastCgroup(hs: seq<Happening>): Option<string> {
    if hs == [] then None
    else if hs[|hs| - 1].Nri? then Some(hs[|hs| - 1].cgroup)
    else LastCgroup(hs[..|hs| - 1])
  }

  /** The devices of all lists since the pod was last unregistered, one list after the other. */
  function DevsSince(hs: seq<Happening>): seq<DevId> {
    if hs == [] then []
    else
      var before, h := hs[..|hs| - 1], hs[|hs| - 1];
      if UnregistersAt(After(before).entry, h) then [] else DevsSince(before) + DevsOf(h)
  }

  function DevsOf(h: Happening): seq<DevId> {
    if h.Cr? then h.devs else []
  }

  /** The entry has what the events and lists gave. */
  predicate Holding(o: Option<RegInfo>, cgroup: Option<string>, devs: seq<DevId>) {
    match o
    case None => devs == []
    case Some(i) => (i.cgroup == "" || Some(i.cgroup) == cgroup) && i.devs == devs
  }

  lemma AskedHolding(o: Option<RegInfo>, h: Happening, cgroup: Option<string>, devs: seq<DevId>)
    requires Holding(o, cgroup, devs)
    ensures Holding(Asked(o, h), if h.Nri? then Some(h.cgroup) else cgroup, devs + DevsOf(h))
  {
    assert devs + [] == devs;
  }

  lemma {:induction false} EntryHolding(hs: seq<Happening>)
    ensures Holding(After(hs).entry, LastCgroup(hs), DevsSince(hs))
  {
    if hs != [] {
      var before, h := hs[..|hs| - 1], hs[|hs| - 1];
      EntryHolding(before);
      AskedHolding(After(before).entry, h, LastCgroup(before), DevsSince(before));
    }
  }

  /** A pod is registered under the cgroup of the last runtime event about it, on the devices of all
      lists since it was last unregistered. */
  lemma RegisteredWith(hs: seq<Happening>, h: Happening, n: nat)
    requires n < |After(hs + [h]).calls| && |After(hs).calls| <= n && After(hs + [h]).calls[n].Register?
    ensures LastCgroup(hs + [h]).Some?
    ensures After(hs + [h]).calls[n] == Register(LastCgroup(hs + [h]).value, DevsSince(hs) + DevsOf(h))
  {
    EntryHolding(hs);
    AskedHolding(After(hs).entry, h, LastCgroup(hs), DevsSince(hs));
    CallsAdded(hs, h);
    CallSays(Asked(After(hs).entry, h).value, n - |After(hs).calls|);
  }

  lemma CallsAdded(hs: seq<Happening>, h: Happening)
    ensures var o := Asked(After(hs).entry, h);
            After(hs + [h]).calls == After(hs).calls + if o.Some? then CallsFor(o.value) else []
    ensures LastCgroup(hs + [h]) == if h.Nri? then Some(h.cgroup) else LastCgroup(hs)
  {
    assert (hs + [h])[..|hs|] == hs;
  }

  lemma CallSays(i: RegInfo, n: nat)
    requires n < |CallsFor(i)| && CallsFor(i)[n].Register?
    ensures CallsFor(i)[n] == Register(i.cgroup, i.devs) && i.cgroup != ""
  {
  }

  /** Without a runtime event about it nothing is called about a pod. */
  lemma {:induction false} UnheardNeverCalled(hs: seq<Happening>)
    requires forall i | 0 <= i < |hs| :: !hs[i].Nri?
    ensures After(hs).calls == [] && (After(hs).entry.Some? ==> After(hs).entry.value.nri == {})
  {
    if hs != [] {
      UnheardNeverCalled(hs[..|hs| - 1]);
    }
  }
}
