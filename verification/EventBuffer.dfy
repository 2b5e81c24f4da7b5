/** The flag-gated event buffer of the node agent (pkg/agent/dataengine.go).

    An event waits in a buffer until every flag it expects is set.  Setting a new flag replays
    the buffer, and a replayed handler may itself set flags, which replays the buffer again
    from inside the first replay.

    `Engine` is the state, `AfterSetFlag` and its companions say what the code computes, `IoEngine`
    is the object that computes it, and the lemmas say what a run of events can rely on. */
module EventBuffer {
  import opened Sorting

  /** A machine integer used as a bit mask, as the set of its bits. */
  type Bit = b: int | 0 <= b < 64
  type Flags = set<Bit>

  /** A submitted event; `id` is its position in the order of submission. */
  datatype Event = Event(id: nat, needs: Flags)

  /** What a handler does to the engine: the flags it sets, in order.  The answer may depend on
      everything that has run so far, so a handler may behave differently when it is run again. */
  type Script = (Event, seq<Event>) -> seq<Flags>

  /** `trace` lists the handler executions so far. */
  datatype Engine = Engine(flag: Flags, buffer: seq<Event>, trace: seq<Event>)

  const AllBits: Flags := set b: Bit | 0 <= b < 64

  /** The number of flags still unset, which bounds the depth of re-entry. */
  ghost function Unset(flag: Flags): nat {
    |AllBits - flag|
  }

  lemma UnsetShrinks(small: Flags, big: Flags)
    requires small <= big
    ensures Unset(big) <= Unset(small)
    ensures small != big ==> Unset(big) < Unset(small)
  {
    SubsetSize(AllBits - big, AllBits - small);
    if small != big {
      var b :| b in big && b !in small;
      assert b in AllBits - small && b !in AllBits - big;
    }
  }

  lemma SubsetSize(x: Flags, y: Flags)
    requires x <= y
    ensures |x| <= |y|
    ensures x != y ==> |x| < |y|
  {
    assert y == x + (y - x);
  }

  // ---------------------------------------------------------------- what the code computes

  ghost function AfterSetFlag(s: Engine, f: Flags, h: Script): (r: Engine)
    ensures s.flag + f <= r.flag
    decreases Unset(s.flag), 0, 0
  {
    if f <= s.flag then s
    else
      UnsetShrinks(s.flag, s.flag + f);
      var (r, kept) := Drain(s.(flag := s.flag + f), s.buffer, [], h);
      r.(buffer := kept)
  }

  /** Replays `rest`, a snapshot of the buffer; what still cannot run is collected in `kept`. */
  ghost function Drain(s: Engine, rest: seq<Event>, kept: seq<Event>, h: Script): (r: (Engine, seq<Event>))
    ensures s.flag <= r.0.flag
    decreases Unset(s.flag), 3, |rest|
  {
    if rest == [] then (s, kept)
    else if rest[0].needs <= s.flag then
      var m := AfterExecute(s, rest[0], h);
      UnsetShrinks(s.flag, m.flag);
      Drain(m, rest[1..], kept, h)
    else Drain(s, rest[1..], kept + [rest[0]], h)
  }

  ghost function AfterExecute(s: Engine, ev: Event, h: Script): (r: Engine)
    ensures s.flag <= r.flag
    decreases Unset(s.flag), 2, 0
  {
    var t := s.trace + [ev];
    AfterSetFlags(s.(trace := t), h(ev, t), h)
  }

  ghost function AfterSetFlags(s: Engine, calls: seq<Flags>, h: Script): (r: Engine)
    ensures s.flag <= r.flag
    decreases Unset(s.flag), 1, |calls|
  {
    if calls == [] then s
    else
      var m := AfterSetFlag(s, calls[0], h);
      UnsetShrinks(s.flag, m.flag);
      AfterSetFlags(m, calls[1..], h)
  }

  ghost function AfterHandleEvent(s: Engine, ev: Event, h: Script): (r: Engine) {
    if ev.needs <= s.flag then AfterExecute(s, ev, h) else s.(buffer := s.buffer + [ev])
  }

  // ---------------------------------------------------------------- the engine object

  class IoEngine {
    var flag: Flags
    var cacheDatas: seq<Event>
    var trace: seq<Event>
    const script: Script

    ghost function State(): Engine
      reads this
    {
      Engine(flag, cacheDatas, trace)
    }

    constructor (script: Script)
      ensures State() == Engine({}, [], []) && this.script == script
    {
      flag, cacheDatas, trace := {}, [], [];
      this.script := script;
    }

    method SetFlag(f: Flags)
      modifies this
      ensures State() == AfterSetFlag(old(State()), f, script)
      decreases Unset(flag), 0, 0
    {
      if f <= flag {
        return;
      }
      UnsetShrinks(flag, flag + f);
      flag := flag + f;
      var snapshot, newCache, i := cacheDatas, [], 0;
      ghost var start := State();
      while i < |snapshot|
        invariant 0 <= i <= |snapshot|
        invariant start.flag <= flag
        invariant Drain(State(), snapshot[i..], newCache, script) == Drain(start, snapshot, [], script)
      {
        assert snapshot[i..][0] == snapshot[i] && snapshot[i..][1..] == snapshot[i + 1..];
        UnsetShrinks(start.flag, flag);
        if snapshot[i].needs <= flag {
          Execute(snapshot[i]);
        } else {
          newCache := newCache + [snapshot[i]];
        }
        i := i + 1;
      }
      cacheDatas := newCache;
    }

    /** Runs one handler. */
    method Execute(ev: Event)
      modifies this
      ensures State() == AfterExecute(old(State()), ev, script)
      decreases Unset(flag), 2, 0
    {
      trace := trace + [ev];
      ghost var start := State();
      var asked := script(ev, trace);
      var i := 0;
      while i < |asked|
        invariant 0 <= i <= |asked|
        invariant start.flag <= flag
        invariant AfterSetFlags(State(), asked[i..], script) == AfterSetFlags(start, asked, script)
      {
        assert asked[i..][0] == asked[i] && asked[i..][1..] == asked[i + 1..];
        UnsetShrinks(start.flag, flag);
        SetFlag(asked[i]);
        i := i + 1;
      }
    }

    method HandleEvent(ev: Event)
      modifies this
      ensures State() == AfterHandleEvent(old(State()), ev, script)
    {
      if ev.needs <= flag {
        Execute(ev);
      } else {
        cacheDatas := cacheDatas + [ev];
      }
    }
  }

  // ---------------------------------------------------------------- nothing is lost

  /** The handler executions between two states. */
  ghost function Ran(s: Engine, r: Engine): seq<Event>
    requires s.trace <= r.trace
  {
    r.trace[|s.trace|..]
  }

  /** What any amount of re-entrant work does to the events that were waiting. */
  ghost predicate Faithful(s: Engine, r: Engine) {
    && s.trace <= r.trace
    && s.flag <= r.flag
    && (s.flag == r.flag ==> r.buffer == s.buffer)
    && (forall e <- r.buffer :: e in s.buffer)
    && (forall e <- s.buffer :: e in r.buffer || e in Ran(s, r))
    && (s.flag != r.flag ==> forall e <- s.buffer | e.needs <= r.flag :: e in Ran(s, r))
  }

  lemma FaithfulCompose(s: Engine, m: Engine, r: Engine)
    requires Faithful(s, m) && Faithful(m, r)
    ensures Faithful(s, r)
    ensures Ran(s, r) == Ran(s, m) + Ran(m, r)
  {
    assert r.trace[..|m.trace|] == m.trace;
    assert Ran(s, r) == Ran(s, m) + Ran(m, r);
  }

  /** A SetFlag call loses no waiting event, and when it raised a flag every event that is now
      permitted has run, however its handlers re-enter the buffer. */
  lemma {:induction false} SetFlagFaithful(s: Engine, f: Flags, h: Script)
    ensures Faithful(s, AfterSetFlag(s, f, h))
    decreases Unset(s.flag), 0, 0
  {
    if !(f <= s.flag) {
      UnsetShrinks(s.flag, s.flag + f);
      DrainFaithful(s, s.(flag := s.flag + f), 0, [], h);
    }
  }

  /** The state of a replay after the first `i` events of the snapshot `s.buffer`. */
  ghost predicate Replaying(s: Engine, c: Engine, i: nat, kept: seq<Event>) {
    && i <= |s.buffer|
    && s.trace <= c.trace
    && s.flag < c.flag
    && (forall e <- c.buffer + kept :: e in s.buffer)
    && (forall e <- s.buffer :: e in c.buffer || e in Ran(s, c))
    && (forall e <- s.buffer[..i] :: e in kept || e in Ran(s, c))
    && (forall e <- s.buffer[..i] | e.needs <= c.flag :: e in Ran(s, c))
  }

  /** The handler of the i-th waiting event has run. */
  lemma ReplayOne(s: Engine, c: Engine, i: nat, kept: seq<Event>, m: Engine)
    requires Replaying(s, c, i, kept) && i < |s.buffer|
    requires Faithful(c, m) && c.trace + [s.buffer[i]] <= m.trace
    ensures Replaying(s, m, i + 1, kept)
  {
    var ev := s.buffer[i];
    assert Ran(s, m) == Ran(s, c) + Ran(c, m);
    assert s.buffer[..i + 1] == s.buffer[..i] + [ev];
    assert m.trace[|c.trace|] == ev && Ran(c, m)[0] == ev;
    forall e | e in s.buffer
      ensures e in m.buffer || e in Ran(s, m)
      ensures e.needs <= m.flag && !(e.needs <= c.flag) ==> e in Ran(s, m)
    {
      assert e in c.buffer || e in Ran(s, c);
    }
  }

  lemma {:induction false} DrainFaithful(s: Engine, c: Engine, i: nat, kept: seq<Event>, h: Script)
    requires Replaying(s, c, i, kept)
    ensures var (r, k) := Drain(c, s.buffer[i..], kept, h); Faithful(s, r.(buffer := k))
    decreases Unset(c.flag), 3, |s.buffer| - i
  {
    var rest := s.buffer[i..];
    if rest == [] {
      assert s.buffer[..i] == s.buffer;
    } else {
      var ev := rest[0];
      assert rest[1..] == s.buffer[i + 1..] && s.buffer[..i + 1] == s.buffer[..i] + [ev];
      if ev.needs <= c.flag {
        var m := AfterExecute(c, ev, h);
        ExecuteFaithful(c, ev, h);
        ReplayOne(s, c, i, kept, m);
        UnsetShrinks(c.flag, m.flag);
        DrainFaithful(s, m, i + 1, kept, h);
      } else {
        DrainFaithful(s, c, i + 1, kept + [ev], h);
      }
    }
  }

  lemma {:induction false} ExecuteFaithful(s: Engine, ev: Event, h: Script)
    ensures var r := AfterExecute(s, ev, h);
            Faithful(s, r) && s.trace + [ev] <= r.trace
    decreases Unset(s.flag), 2, 0
  {
    var t := s.trace + [ev];
    SetFlagsFaithful(s.(trace := t), h(ev, t), h);
    var r := AfterExecute(s, ev, h);
    assert Ran(s, r) == [ev] + Ran(s.(trace := t), r);
  }

  lemma {:induction false} SetFlagsFaithful(s: Engine, calls: seq<Flags>, h: Script)
    ensures Faithful(s, AfterSetFlags(s, calls, h))
    decreases Unset(s.flag), 1, |calls|
  {
    if calls != [] {
      var m := AfterSetFlag(s, calls[0], h);
      SetFlagFaithful(s, calls[0], h);
      UnsetShrinks(s.flag, m.flag);
      SetFlagsFaithful(m, calls[1..], h);
      FaithfulCompose(s, m, AfterSetFlags(m, calls[1..], h));
    }
  }

  // ---------------------------------------------------------------- whole runs

  /** What reaches the engine: an event that may be buffered, or one whose handler runs at once. */
  datatype Arrival = Buffered(needs: Flags) | Immediate

  ghost function RunOf(arrivals: seq<Arrival>, h: Script): (r: (Engine, seq<Event>)) {
    if arrivals == [] then (Engine({}, [], []), [])
    else
      var last := |arrivals| - 1;
      var (s, sent) := RunOf(arrivals[..last], h);
      match arrivals[last]
      case Buffered(needs) =>
        var ev := Event(|sent|, needs);
        (AfterHandleEvent(s, ev, h), sent + [ev])
      case Immediate =>
        var ev := Event(|sent|, {});
        (AfterExecute(s, ev, h), sent + [ev])
  }

  /** An event has run, or it is buffered and something it expects is still missing. */
  ghost predicate Accounted(s: Engine, e: Event) {
    e in s.trace || (e in s.buffer && !(e.needs <= s.flag))
  }

  lemma StaysAccounted(s: Engine, r: Engine, e: Event)
    requires Accounted(s, e) && Faithful(s, r)
    ensures Accounted(r, e)
  {
    if e !in s.trace && e in Ran(s, r) {
      assert e in r.trace;
    }
  }

  /** After every run, each submitted event has run or waits for a flag that is not set; so an
      event all of whose flags are set has run at least once. */
  lemma {:induction false} NothingLost(arrivals: seq<Arrival>, h: Script)
    ensures var (s, sent) := RunOf(arrivals, h);
            && |sent| == |arrivals|
            && (forall i | 0 <= i < |sent| :: sent[i].id == i)
            && (forall e <- sent :: Accounted(s, e))
  {
    if arrivals != [] {
      var last := |arrivals| - 1;
      NothingLost(arrivals[..last], h);
      var (s, sent) := RunOf(arrivals[..last], h);
      var (r, sent') := RunOf(arrivals, h);
      var ev := sent'[|sent|];
      ExecuteFaithful(s, ev, h);
      forall e | e in sent'
        ensures Accounted(r, e)
      {
        if e in sent {
          if ev.needs <= s.flag {
            StaysAccounted(s, r, e);
          }
        } else {
          assert e == ev;
          if ev.needs <= s.flag {
            assert (s.trace + [ev])[|s.trace|] == ev == r.trace[|s.trace|];
          }
        }
      }
    }
  }

  // ---------------------------------------------------------------- exactly once

  /** The buffered events that flags `flag` let through, in arrival order. */
  ghost function Permitted(buffer: seq<Event>, flag: Flags): seq<Event> {
    if buffer == [] then []
    else (if buffer[0].needs <= flag then [buffer[0]] else []) + Permitted(buffer[1..], flag)
  }

  ghost function Withheld(buffer: seq<Event>, flag: Flags): seq<Event> {
    if buffer == [] then []
    else (if buffer[0].needs <= flag then [] else [buffer[0]]) + Withheld(buffer[1..], flag)
  }

  /** None of the handlers that a replay of `rest` runs asks for a flag that is not set. */
  ghost predicate Quiet(flag: Flags, rest: seq<Event>, trace: seq<Event>, h: Script) {
    if rest == [] then true
    else if rest[0].needs <= flag then
      var t := trace + [rest[0]];
      && (forall f <- h(rest[0], t) :: f <= flag)
      && Quiet(flag, rest[1..], t, h)
    else Quiet(flag, rest[1..], trace, h)
  }

  lemma {:induction false} IdleCalls(s: Engine, calls: seq<Flags>, h: Script)
    requires forall f <- calls :: f <= s.flag
    ensures AfterSetFlags(s, calls, h) == s
  {
    if calls != [] {
      assert calls[0] in calls;
      IdleCalls(s, calls[1..], h);
    }
  }

  /** A quiet replay runs each permitted event once, in arrival order, and keeps the others. */
  lemma {:induction false} QuietDrain(s: Engine, rest: seq<Event>, kept: seq<Event>, h: Script)
    requires Quiet(s.flag, rest, s.trace, h)
    ensures Drain(s, rest, kept, h)
         == (s.(trace := s.trace + Permitted(rest, s.flag)), kept + Withheld(rest, s.flag))
    decreases |rest|
  {
    if rest == [] {
      assert s.trace + [] == s.trace && kept + [] == kept;
    } else if rest[0].needs <= s.flag {
      var t := s.trace + [rest[0]];
      IdleCalls(s.(trace := t), h(rest[0], t), h);
      QuietDrain(s.(trace := t), rest[1..], kept, h);
      assert t + Permitted(rest[1..], s.flag) == s.trace + Permitted(rest, s.flag);
      assert Withheld(rest, s.flag) == Withheld(rest[1..], s.flag);
    } else {
      QuietDrain(s, rest[1..], kept + [rest[0]], h);
      assert kept + [rest[0]] + Withheld(rest[1..], s.flag) == kept + Withheld(rest, s.flag);
      assert Permitted(rest, s.flag) == Permitted(rest[1..], s.flag);
    }
  }

  /** Asking for a missing flag inside a replay runs the asking event's own handler again. */
  lemma {:induction false} BusyCalls(s: Engine, calls: seq<Flags>, h: Script, ev: Event)
    requires ev in s.buffer && ev.needs <= s.flag
    requires exists f <- calls :: !(f <= s.flag)
    ensures var r := AfterSetFlags(s, calls, h); s.trace <= r.trace && ev in Ran(s, r)
    decreases |calls|
  {
    var m := AfterSetFlag(s, calls[0], h);
    SetFlagFaithful(s, calls[0], h);
    SetFlagsFaithful(m, calls[1..], h);
    FaithfulCompose(s, m, AfterSetFlags(m, calls[1..], h));
    if calls[0] <= s.flag {
      BusyCalls(s, calls[1..], h, ev);
    }
  }

  lemma {:induction false} BusyDrain(s: Engine, i: nat, kept: seq<Event>, h: Script)
    requires i <= |s.buffer| && !Quiet(s.flag, s.buffer[i..], s.trace, h)
    ensures var r := Drain(s, s.buffer[i..], kept, h).0;
            s.trace <= r.trace && exists e :: multiset(Ran(s, r))[e] >= 2
    decreases |s.buffer| - i
  {
    var rest := s.buffer[i..];
    var ev := rest[0];
    assert rest[1..] == s.buffer[i + 1..];
    if !(ev.needs <= s.flag) {
      BusyDrain(s, i + 1, kept + [ev], h);
    } else {
      var t := s.trace + [ev];
      if forall f <- h(ev, t) :: f <= s.flag {
        var c := s.(trace := t);
        IdleCalls(c, h(ev, t), h);
        BusyDrain(c, i + 1, kept, h);
        assert AfterExecute(s, ev, h) == c;
        TwiceLater(s, ev, Drain(c, s.buffer[i + 1..], kept, h).0);
      } else {
        TwiceNow(s, ev, rest[1..], kept, h);
      }
    }
  }

  lemma TwiceLater(s: Engine, ev: Event, r: Engine)
    requires s.trace + [ev] <= r.trace
    requires exists e :: multiset(Ran(s.(trace := s.trace + [ev]), r))[e] >= 2
    ensures exists e :: multiset(Ran(s, r))[e] >= 2
  {
    var c := s.(trace := s.trace + [ev]);
    var e :| multiset(Ran(c, r))[e] >= 2;
    assert Ran(s, r) == [ev] + Ran(c, r);
    assert multiset(Ran(s, r))[e] >= 2;
  }

  lemma TwiceNow(s: Engine, ev: Event, rest: seq<Event>, kept: seq<Event>, h: Script)
    requires ev in s.buffer && ev.needs <= s.flag
    requires exists f <- h(ev, s.trace + [ev]) :: !(f <= s.flag)
    ensures var r := Drain(AfterExecute(s, ev, h), rest, kept, h).0;
            s.trace <= r.trace && exists e :: multiset(Ran(s, r))[e] >= 2
  {
    var t := s.trace + [ev];
    var c, m := s.(trace := t), AfterExecute(s, ev, h);
    var r := Drain(m, rest, kept, h).0;
    BusyCalls(c, h(ev, t), h, ev);
    DrainExtends(m, rest, kept, h);
    assert Ran(s, r) == [ev] + Ran(c, m) + Ran(m, r);
    assert multiset(Ran(s, r))[ev] >= 2;
  }

  lemma {:induction false} DrainExtends(s: Engine, rest: seq<Event>, kept: seq<Event>, h: Script)
    ensures s.trace <= Drain(s, rest, kept, h).0.trace
    decreases |rest|
  {
    if rest != [] {
      if rest[0].needs <= s.flag {
        ExecuteFaithful(s, rest[0], h);
        DrainExtends(AfterExecute(s, rest[0], h), rest[1..], kept, h);
      } else {
        DrainExtends(s, rest[1..], kept + [rest[0]], h);
      }
    }
  }

  lemma {:induction false} PermittedOnce(buffer: seq<Event>, flag: Flags, e: Event)
    requires NoRepeats(buffer)
    ensures multiset(Permitted(buffer, flag))[e] <= (if e in buffer then 1 else 0)
  {
    if buffer != [] {
      assert buffer[0] !in buffer[1..];
      PermittedOnce(buffer[1..], flag, e);
    }
  }

  /** Raising a flag runs no event twice exactly when no handler it runs asks for a flag that is
      still missing, and then the replay is the plain one: every permitted event once, in
      arrival order, the others kept. */
  lemma ExactlyOnceIffQuiet(s: Engine, f: Flags, h: Script)
    requires !(f <= s.flag) && NoRepeats(s.buffer)
    ensures var r := AfterSetFlag(s, f, h);
            var flag := s.flag + f;
            && s.trace <= r.trace
            && (Quiet(flag, s.buffer, s.trace, h) <==> forall e :: multiset(Ran(s, r))[e] <= 1)
            && (Quiet(flag, s.buffer, s.trace, h) ==>
                  r == Engine(flag, Withheld(s.buffer, flag), s.trace + Permitted(s.buffer, flag)))
  {
    var flag := s.flag + f;
    var r := AfterSetFlag(s, f, h);
    SetFlagFaithful(s, f, h);
    var c := s.(flag := flag);
    assert c.buffer[0..] == s.buffer;
    if Quiet(flag, s.buffer, s.trace, h) {
      QuietDrain(c, s.buffer, [], h);
      assert Ran(s, r) == Permitted(s.buffer, flag);
      forall e ensures multiset(Ran(s, r))[e] <= 1 { PermittedOnce(s.buffer, flag, e); }
    } else {
      BusyDrain(c, 0, [], h);
    }
  }

  /** The two disk-engine events that the agent can have waiting at start-up: a profile that
      expects the admin flag and then sets the profile flag runs twice. */
  lemma NestedReplayRunsTwice()
    ensures var admin: Flags, profile: Flags := {2}, {0};
            var ev := Event(0, admin);
            var h: Script := (e: Event, t: seq<Event>) => [profile];
            AfterSetFlag(Engine({}, [ev], []), admin, h).trace == [ev, ev]
  {
    var admin: Flags, profile: Flags := {2}, {0};
    var ev := Event(0, admin);
    var h: Script := (e: Event, t: seq<Event>) => [profile];
    var c := Engine(admin, [ev], [ev]);
    var d := Engine(admin + profile, [ev], [ev, ev]);
    assert AfterSetFlags(d, [profile], h) == d by { IdleCalls(d, [profile], h); }
    assert [ev] + [ev] == [ev, ev];
    assert Drain(Engine(admin + profile, [ev], [ev]), [ev], [], h) == (d, []);
    assert AfterSetFlag(c, profile, h) == d.(buffer := []);
    assert AfterSetFlags(d.(buffer := []), [], h) == d.(buffer := []);
    assert AfterSetFlags(c, [profile], h) == d.(buffer := []);
    assert [] + [ev] == [ev];
    assert AfterExecute(Engine(admin, [ev], []), ev, h) == d.(buffer := []);
    assert Drain(d.(buffer := []), [], [], h) == (d.(buffer := []), []);
    assert Drain(Engine(admin, [ev], []), [ev], [], h) == (d.(buffer := []), []);
    assert {} + admin == admin;
  }

  // ---------------------------------------------------------------- exactly once, over whole runs

  /** Handlers of events that may be buffered set no flags; events that expect nothing may. */
  ghost predicate Docile(h: Script) {
    forall e: Event, t: seq<Event> :: e.needs != {} ==> h(e, t) == []
  }

  predicate AllExpect(buffer: seq<Event>) {
    forall i | 0 <= i < |buffer| :: buffer[i].needs != {}
  }

  lemma {:induction false} DocileQuiet(flag: Flags, rest: seq<Event>, trace: seq<Event>, h: Script)
    requires Docile(h) && AllExpect(rest)
    ensures Quiet(flag, rest, trace, h)
    decreases |rest|
  {
    if rest != [] {
      var t := if rest[0].needs <= flag then trace + [rest[0]] else trace;
      assert h(rest[0], t) == [];
      DocileQuiet(flag, rest[1..], t, h);
    }
  }

  lemma {:induction false} PermittedOrWithheld(buffer: seq<Event>, flag: Flags)
    ensures multiset(Permitted(buffer, flag)) + multiset(Withheld(buffer, flag)) == multiset(buffer)
    ensures forall e <- Withheld(buffer, flag) :: e in buffer
    ensures forall e <- Permitted(buffer, flag) :: e.needs <= flag
  {
    if buffer != [] {
      PermittedOrWithheld(buffer[1..], flag);
      assert buffer == [buffer[0]] + buffer[1..];
    }
  }

  /** Every event is in the trace or in the buffer, as often as it was submitted. */
  ghost predicate Conserved(s: Engine, sent: seq<Event>) {
    && multiset(s.trace) + multiset(s.buffer) == multiset(sent)
    && AllExpect(s.buffer)
    && forall i | 0 <= i < |s.trace| :: s.trace[i].needs <= s.flag
  }

  lemma SetFlagConserves(s: Engine, f: Flags, h: Script, sent: seq<Event>)
    requires Docile(h) && Conserved(s, sent)
    ensures Conserved(AfterSetFlag(s, f, h), sent)
  {
    if !(f <= s.flag) {
      var flag := s.flag + f;
      DocileQuiet(flag, s.buffer, s.trace, h);
      QuietDrain(s.(flag := flag), s.buffer, [], h);
      ReplayConserves(s, flag, sent);
    }
  }

  lemma ReplayConserves(s: Engine, flag: Flags, sent: seq<Event>)
    requires Conserved(s, sent) && s.flag <= flag
    ensures Conserved(Engine(flag, [] + Withheld(s.buffer, flag), s.trace + Permitted(s.buffer, flag)), sent)
  {
    PermittedOrWithheld(s.buffer, flag);
    var run, kept := Permitted(s.buffer, flag), Withheld(s.buffer, flag);
    assert [] + kept == kept;
    forall i | 0 <= i < |kept|
      ensures kept[i].needs != {}
    {
      assert kept[i] in s.buffer;
    }
    forall i | 0 <= i < |s.trace + run|
      ensures (s.trace + run)[i].needs <= flag
    {
      assert i >= |s.trace| ==> (s.trace + run)[i] in run;
    }
  }

  lemma {:induction false} SetFlagsConserve(s: Engine, calls: seq<Flags>, h: Script, sent: seq<Event>)
    requires Docile(h) && Conserved(s, sent)
    ensures Conserved(AfterSetFlags(s, calls, h), sent)
    decreases |calls|
  {
    if calls != [] {
      SetFlagConserves(s, calls[0], h, sent);
      SetFlagsConserve(AfterSetFlag(s, calls[0], h), calls[1..], h, sent);
    }
  }

  lemma ExecuteConserves(s: Engine, ev: Event, h: Script, sent: seq<Event>)
    requires Docile(h) && Conserved(s, sent) && ev.needs <= s.flag
    ensures Conserved(AfterExecute(s, ev, h), sent + [ev])
  {
    var t := s.trace + [ev];
    SetFlagsConserve(s.(trace := t), h(ev, t), h, sent + [ev]);
  }

  lemma {:induction false} RunConserves(arrivals: seq<Arrival>, h: Script)
    requires Docile(h)
    ensures var (s, sent) := RunOf(arrivals, h); Conserved(s, sent)
  {
    if arrivals != [] {
      var last := |arrivals| - 1;
      RunConserves(arrivals[..last], h);
      var (s, sent) := RunOf(arrivals[..last], h);
      var ev := Event(|sent|, if arrivals[last].Buffered? then arrivals[last].needs else {});
      if ev.needs <= s.flag {
        ExecuteConserves(s, ev, h, sent);
      }
    }
  }

  /** Over every run in which handlers of buffered events set no flags, an event whose flags are all
      set has run exactly once, and any other is buffered exactly once and has not run. */
  lemma EachExactlyOnce(arrivals: seq<Arrival>, h: Script)
    requires Docile(h)
    ensures var (s, sent) := RunOf(arrivals, h);
            forall e <- sent ::
              if e.needs <= s.flag then multiset(s.trace)[e] == 1 && e !in s.buffer
              else multiset(s.buffer)[e] == 1 && e !in s.trace
  {
    var (s, sent) := RunOf(arrivals, h);
    NothingLost(arrivals, h);
    RunConserves(arrivals, h);
    forall e | e in sent
      ensures if e.needs <= s.flag then multiset(s.trace)[e] == 1 && e !in s.buffer
              else multiset(s.buffer)[e] == 1 && e !in s.trace
    {
      assert Accounted(s, e);
      CountOnce(sent, e);
      assert multiset(s.trace)[e] + multiset(s.buffer)[e] == multiset(sent)[e] == 1;
    }
  }
}
