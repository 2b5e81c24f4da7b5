/** First-fit packing of a pod's new volumes onto the disks of a node
    (pkg/scheduler/blockio/bp.go), and the disk-space check that follows it
    (pkg/scheduler/blockio/resource.go: AdmitPod; handle.go: getRestDisksStatus, CanAdmitPod). */
module Packer {
  import opened IoTypes
  import opened MappingRatios
  import opened Sums
  import opened Sorting
  import DiskCache

  /** What is left of a disk while volumes are packed. */
  datatype Bin = Bin(ga: Pool, be: Pool, beMin: Pool, size: int)

  datatype Volume = Volume(name: string, pvcName: string, bestEffort: bool, rawRead: real, rawWrite: real,
                           bsRead: int, bsWrite: int, size: int)

  type Bins = map<DevId, Bin>

  function Weight(v: Volume): real {
    (v.rawRead + v.rawWrite) * v.size as real
  }

  /** The device bandwidth a volume takes from a disk. */
  function Need(v: Volume, info: DiskInfo): Amount {
    if v.bestEffort then Zero
    else Amount(v.rawRead * Find(v.bsRead, info.readRatio).ratio,
                v.rawWrite * Find(v.bsWrite, info.writeRatio).ratio, 0)
  }

  predicate CanFit(d: Bin, v: Volume, info: DiskInfo)
    requires d.be.num >= 0
  {
    var n := Need(v, info);
    if !v.bestEffort then
      d.ga.rd >= n.rd && d.ga.wr >= n.wr && d.ga.total >= n.rd + n.wr && d.size >= v.size && !d.ga.pressured
    else
      var sharers := (d.be.num + 1) as real;
      d.be.rd / sharers > d.beMin.rd && d.be.wr / sharers > d.beMin.wr && d.be.total / sharers > d.beMin.total
      && d.size >= v.size && !d.be.pressured
  }

  function Packed(d: Bin, v: Volume, info: DiskInfo): Bin {
    var n := Need(v, info);
    d.(ga := d.ga.(rd := d.ga.rd - n.rd, wr := d.ga.wr - n.wr, total := d.ga.total - (n.rd + n.wr)),
       size := d.size - v.size)
  }

  /** AddDevice. */
  function Emptied(info: DiskInfo): Bin {
    Bin(info.ga, info.be,
           Pool(info.beDefaultRead, info.beDefaultWrite, info.beDefaultRead + info.beDefaultWrite, false, 0),
           info.capacity - info.requestedDiskSpace)
  }

  // ---------------------------------------------------------------- first fit

  predicate Ready(order: seq<DevId>, infos: DiskCache.Disks, bins: Bins) {
    forall i | 0 <= i < |order| :: order[i] in infos && order[i] in bins && bins[order[i]].be.num >= 0
  }

  /** The first device in the order that takes the volume. */
  function FirstFit(order: seq<DevId>, infos: DiskCache.Disks, bins: Bins, v: Volume): Option<DevId>
    requires Ready(order, infos, bins)
  {
    if order == [] then None
    else if CanFit(bins[order[0]], v, infos[order[0]]) then Some(order[0])
    else FirstFit(order[1..], infos, bins, v)
  }

  function AfterPlace(infos: DiskCache.Disks, bins: Bins, v: Volume, place: Option<DevId>): Bins
    requires place.Some? ==> place.value in infos && place.value in bins
  {
    if place.Some? then bins[place.value := Packed(bins[place.value], v, infos[place.value])] else bins
  }

  lemma {:induction false} FirstFitFits(order: seq<DevId>, infos: DiskCache.Disks, bins: Bins, v: Volume)
    requires Ready(order, infos, bins)
    ensures var place := FirstFit(order, infos, bins, v);
            && (place.Some? ==> exists i | 0 <= i < |order| ::
                  && order[i] == place.value && CanFit(bins[order[i]], v, infos[order[i]])
                  && forall j | 0 <= j < i :: !CanFit(bins[order[j]], v, infos[order[j]]))
            && (place.None? ==> forall j | 0 <= j < |order| :: !CanFit(bins[order[j]], v, infos[order[j]]))
  {
    if order != [] {
      if CanFit(bins[order[0]], v, infos[order[0]]) {
        assert order[0] == FirstFit(order, infos, bins, v).value;
      } else {
        var rest := order[1..];
        FirstFitFits(rest, infos, bins, v);
        var place := FirstFit(rest, infos, bins, v);
        if place.Some? {
          var i :| 0 <= i < |rest| && rest[i] == place.value && CanFit(bins[rest[i]], v, infos[rest[i]])
                   && forall j | 0 <= j < i :: !CanFit(bins[rest[j]], v, infos[rest[j]]);
          assert order[i + 1] == rest[i];
          assert forall j | 0 <= j < i + 1 :: j > 0 ==> order[j] == rest[j - 1];
        } else {
          assert forall j | 0 < j < |order| :: order[j] == rest[j - 1];
        }
      }
    }
  }

  /** Packing volumes one after the other: where each goes, and what is left. */
  datatype Packing = Packing(places: seq<Option<DevId>>, bins: Bins)

  function PackAll(order: seq<DevId>, infos: DiskCache.Disks, bins: Bins, vs: seq<Volume>): (p: Packing)
    requires Ready(order, infos, bins)
    ensures |p.places| == |vs| && Ready(order, infos, p.bins) && p.bins.Keys == bins.Keys
    ensures forall i | 0 <= i < |vs| && p.places[i].Some? :: p.places[i].value in order
  {
    if vs == [] then Packing([], bins)
    else
      var last := |vs| - 1;
      var p := PackAll(order, infos, bins, vs[..last]);
      var place := FirstFit(order, infos, p.bins, vs[last]);
      FirstFitFits(order, infos, p.bins, vs[last]);
      Packing(p.places + [place], AfterPlace(infos, p.bins, vs[last], place))
  }

  // ---------------------------------------------------------------- what is taken from a disk

  /** What the volumes placed on one disk take from it: bandwidth, and disk space. */
  function Taken(infos: DiskCache.Disks, vs: seq<Volume>, places: seq<Option<DevId>>, d: DevId): Amount
    requires |places| == |vs| && d in infos
  {
    if vs == [] then Zero
    else
      var last := |vs| - 1;
      var rest := Taken(infos, vs[..last], places[..last], d);
      if places[last] == Some(d) then
        var n := Need(vs[last], infos[d]);
        rest.Plus(Amount(n.rd, n.wr, vs[last].size))
      else rest
  }

  predicate PlacedOn(places: seq<Option<DevId>>, d: DevId) {
    exists i | 0 <= i < |places| :: places[i] == Some(d)
  }

  predicate GuaranteedOn(vs: seq<Volume>, places: seq<Option<DevId>>, d: DevId)
    requires |places| == |vs|
  {
    exists i | 0 <= i < |places| :: places[i] == Some(d) && !vs[i].bestEffort
  }

  /** A bin after the given amount was taken out. */
  predicate Reduced(before: Bin, after: Bin, taken: Amount) {
    && after.ga.rd == before.ga.rd - taken.rd
    && after.ga.wr == before.ga.wr - taken.wr
    && after.ga.total == before.ga.total - taken.rd - taken.wr
    && after.size == before.size - taken.n
  }

  /** A bin is never overdrawn by what is put into it. */
  predicate Covered(b: Bin, placed: bool, guaranteed: bool) {
    && (placed ==> b.size >= 0)
    && (guaranteed ==> b.ga.rd >= 0.0 && b.ga.wr >= 0.0 && b.ga.total >= 0.0)
  }

  lemma PlaceStep(before: Bin, b: Bin, v: Volume, info: DiskInfo, taken: Amount, placed: bool, guaranteed: bool)
    requires b.be.num >= 0 && Reduced(before, b, taken) && Covered(b, placed, guaranteed) && CanFit(b, v, info)
    ensures var n := Need(v, info);
            && Reduced(before, Packed(b, v, info), taken.Plus(Amount(n.rd, n.wr, v.size)))
            && Covered(Packed(b, v, info), true, guaranteed || !v.bestEffort)
  {
  }

  /** Per disk, the volumes placed on it are paid out of what it had, and if any is placed then what
      it had was enough for all of them together. */
  lemma {:induction false} PackingCovered(order: seq<DevId>, infos: DiskCache.Disks, bins: Bins, vs: seq<Volume>,
                                          d: DevId)
    requires Ready(order, infos, bins) && d in infos && d in bins
    ensures var p := PackAll(order, infos, bins, vs);
            && Reduced(bins[d], p.bins[d], Taken(infos, vs, p.places, d))
            && Covered(p.bins[d], PlacedOn(p.places, d), GuaranteedOn(vs, p.places, d))
  {
    var p := PackAll(order, infos, bins, vs);
    if vs != [] {
      var last := |vs| - 1;
      var q := PackAll(order, infos, bins, vs[..last]);
      PackingCovered(order, infos, bins, vs[..last], d);
      assert p.places[..last] == q.places;
      FirstFitFits(order, infos, q.bins, vs[last]);
      LastPlace(vs, p.places, d);
      if p.places[last] == Some(d) {
        PlaceStep(bins[d], q.bins[d], vs[last], infos[d], Taken(infos, vs[..last], q.places, d),
                  PlacedOn(q.places, d), GuaranteedOn(vs[..last], q.places, d));
      }
    }
  }

  lemma LastPlace(vs: seq<Volume>, places: seq<Option<DevId>>, d: DevId)
    requires |places| == |vs| && vs != []
    ensures var last := |vs| - 1;
            && (PlacedOn(places, d) <==> PlacedOn(places[..last], d) || places[last] == Some(d))
            && (GuaranteedOn(vs, places, d) <==>
                  GuaranteedOn(vs[..last], places[..last], d) || (places[last] == Some(d) && !vs[last].bestEffort))
  {
    var last := |vs| - 1;
    assert forall i | 0 <= i < last :: places[i] == places[..last][i] && vs[i] == vs[..last][i];
  }

  /** What the guaranteed volumes placed on a disk read, each translated at its own block size. */
  function ReadOn(vs: seq<Volume>, places: seq<Option<DevId>>, d: DevId, ratios: seq<MappingRatio>): real
    requires |places| == |vs|
  {
    if vs == [] then 0.0
    else
      var last := |vs| - 1;
      ReadOn(vs[..last], places[..last], d, ratios)
      + if places[last] == Some(d) && !vs[last].bestEffort then vs[last].rawRead * Find(vs[last].bsRead, ratios).ratio
        else 0.0
  }

  /** And what they write. */
  function WriteOn(vs: seq<Volume>, places: seq<Option<DevId>>, d: DevId, ratios: seq<MappingRatio>): real
    requires |places| == |vs|
  {
    if vs == [] then 0.0
    else
      var last := |vs| - 1;
      WriteOn(vs[..last], places[..last], d, ratios)
      + if places[last] == Some(d) && !vs[last].bestEffort then vs[last].rawWrite * Find(vs[last].bsWrite, ratios).ratio
        else 0.0
  }

  function SizeOn(vs: seq<Volume>, places: seq<Option<DevId>>, d: DevId): int
    requires |places| == |vs|
  {
    if vs == [] then 0
    else
      var last := |vs| - 1;
      SizeOn(vs[..last], places[..last], d) + if places[last] == Some(d) then vs[last].size else 0
  }

  /** A disk pays for reading at its table for reading, and for writing at the one for writing. */
  lemma {:induction false} TakenIs(infos: DiskCache.Disks, vs: seq<Volume>, places: seq<Option<DevId>>, d: DevId)
    requires |places| == |vs| && d in infos
    ensures Taken(infos, vs, places, d) ==
            Amount(ReadOn(vs, places, d, infos[d].readRatio), WriteOn(vs, places, d, infos[d].writeRatio),
                   SizeOn(vs, places, d))
  {
    if vs != [] {
      var last := |vs| - 1;
      TakenIs(infos, vs[..last], places[..last], d);
    }
  }

  /** What a volume asks of a disk, as a request to the scheduler. */
  function AsRequest(v: Volume, info: DiskInfo, d: DevId): IoRequest {
    IoRequest(DiskIO, if v.bestEffort then BE else GA,
              Some(DevRequirement(d, Some(Quantity(v.rawRead * Find(v.bsRead, info.readRatio).ratio,
                                                   v.rawWrite * Find(v.bsWrite, info.writeRatio).ratio, 0.0, 0.0)),
                                  None, None, None)))
  }

  /** The disk as the scheduler would see it with only this much left. */
  function Remaining(b: Bin, info: DiskInfo): DiskInfo {
    info.(ga := b.ga, be := b.be, capacity := b.size, requestedDiskSpace := 0)
  }

  /** The packer's test is the scheduler's admission test on what is left of the disk. */
  lemma CanFitIsAdmission(b: Bin, v: Volume, info: DiskInfo, d: DevId)
    requires b.be.num >= 0 && b.beMin == Emptied(info).beMin
    ensures CanFit(b, v, info) <==> DiskCache.Fits(Remaining(b, info), DeviceRequest(AsRequest(v, info, d), v.size))
  {
  }

  // ---------------------------------------------------------------- the result of packing

  type Claims = map<string, PvcInfo>

  /** Claims are recorded by name. */
  function Allocation(vs: seq<Volume>, places: seq<Option<DevId>>): Claims
    requires |places| == |vs|
  {
    if vs == [] then map[]
    else
      var last := |vs| - 1;
      var before := Allocation(vs[..last], places[..last]);
      if places[last].Some? then before[vs[last].pvcName := PvcInfo(places[last].value, vs[last].size, false)]
      else before
  }

  function VolToDev(vs: seq<Volume>, places: seq<Option<DevId>>): map<string, DevId>
    requires |places| == |vs|
  {
    if vs == [] then map[]
    else
      var last := |vs| - 1;
      var before := VolToDev(vs[..last], places[..last]);
      if places[last].Some? then before[vs[last].name := places[last].value] else before
  }

  /** A volume counts as allocated if its claim is recorded. */
  predicate Accepts(vs: seq<Volume>, places: seq<Option<DevId>>)
    requires |places| == |vs|
  {
    vs != [] ==>
      var last := |vs| - 1;
      Accepts(vs[..last], places[..last]) && vs[last].pvcName in Allocation(vs, places)
  }

  /** Every disk once, those with more guaranteed bandwidth first. */
  ghost predicate DeviceOrder(order: seq<DevId>, infos: DiskCache.Disks) {
    && (forall d :: d in order <==> d in infos)
    && NoRepeats(order)
    && forall i, j | 0 <= i < j < |order| && order[i] in infos && order[j] in infos ::
         infos[order[i]].ga.total >= infos[order[j]].ga.total
  }

  function Guaranteed(infos: DiskCache.Disks): DevId -> real {
    (d: DevId) => if d in infos then infos[d].ga.total else 0.0
  }

  /** By bandwidth times size. */
  predicate HeaviestFirst(vs: seq<Volume>) {
    forall i, j | 0 <= i < j < |vs| ::
      (vs[i].rawRead + vs[i].rawWrite) * vs[i].size as real >= (vs[j].rawRead + vs[j].rawWrite) * vs[j].size as real
  }

  lemma DescendingIsHeaviestFirst(vs: seq<Volume>)
    requires Descends(vs, ByWeight())
    ensures HeaviestFirst(vs)
  {
    forall i, j | 0 <= i < j < |vs|
      ensures (vs[i].rawRead + vs[i].rawWrite) * vs[i].size as real >=
              (vs[j].rawRead + vs[j].rawWrite) * vs[j].size as real
    {
      assert ByWeight()(vs[i]) >= ByWeight()(vs[j]);
    }
  }

  function ByWeight(): Volume -> real {
    (v: Volume) => Weight(v)
  }

  function Start(bins: Bins, infos: DiskCache.Disks): Bins {
    bins + map d | d in infos :: Emptied(infos[d])
  }

  class FirstFitPacker {
    /** Kept from call to call; a disk that is passed again starts afresh. */
    var bins: Bins

    constructor ()
      ensures bins == map[]
    {
      bins := map[];
    }

    method AddVolume(order: seq<DevId>, infos: DiskCache.Disks, v: Volume) returns (place: Option<DevId>)
      requires Ready(order, infos, bins)
      modifies this
      ensures place == FirstFit(order, infos, old(bins), v)
      ensures place.Some? ==> place.value in infos && place.value in old(bins)
      ensures bins == AfterPlace(infos, old(bins), v, place)
    {
      for i := 0 to |order|
        invariant bins == old(bins)
        invariant FirstFit(order[i..], infos, bins, v) == FirstFit(order, infos, bins, v)
      {
        assert order[i..][0] == order[i] && order[i..][1..] == order[i + 1..];
        var name := order[i];
        if CanFit(bins[name], v, infos[name]) {
          bins := bins[name := Packed(bins[name], v, infos[name])];
          return Some(name);
        }
      }
      place := None;
    }

    method Pack(infos: DiskCache.Disks, vols: seq<Volume>)
      returns (ok: bool, volToDev: map<string, DevId>, allocation: Claims,
               ghost order: seq<DevId>, ghost vs: seq<Volume>)
      requires DiskCache.CountsValid(infos)
      modifies this
      ensures multiset(vs) == multiset(vols) && HeaviestFirst(vs) && DeviceOrder(order, infos)
      ensures Ready(order, infos, Start(old(bins), infos))
      ensures var p := PackAll(order, infos, Start(old(bins), infos), vs);
              && (ok <==> Accepts(vs, p.places))
              && (ok ==> bins == p.bins && volToDev == VolToDev(vs, p.places) && allocation == Allocation(vs, p.places))
      ensures !ok ==> volToDev == map[] && allocation == map[]
      ensures !ok ==> exists n :: StuckAt(order, infos, Start(old(bins), infos), vs, n, bins)
    {
      var sorted := SortDescending(vols, ByWeight());
      DescendingIsHeaviestFirst(sorted);
      bins := Start(bins, infos);
      var devs := SortDevices(infos);
      vs, order := sorted, devs;
      ghost var start := bins;
      ok, volToDev, allocation := PackSorted(infos, devs, sorted);
      PackFromIs(devs, infos, start, sorted);
    }

    /** The loops of Pack. */
    method PackSorted(infos: DiskCache.Disks, devs: seq<DevId>, vs: seq<Volume>)
      returns (ok: bool, volToDev: map<string, DevId>, allocation: Claims)
      requires Ready(devs, infos, bins)
      modifies this
      ensures var r := PackFrom(devs, infos, State(old(bins), map[], map[]), vs, 0);
              && (ok <==> r.ok) && bins == r.last.bins
              && if ok then State(bins, volToDev, allocation) == r.last else volToDev == map[] && allocation == map[]
    {
      ok, volToDev, allocation := true, map[], map[];
      for i := 0 to |vs|
        invariant Ready(devs, infos, bins)
        invariant PackFrom(devs, infos, State(bins, volToDev, allocation), vs, i) ==
                  PackFrom(devs, infos, State(old(bins), map[], map[]), vs, 0)
      {
        StillReady(devs, infos, bins, vs[i]);
        var place := AddVolume(devs, infos, vs[i]);
        allocation, volToDev := Recorded(allocation, vs[i], place), Mapped(volToDev, vs[i], place);
        if vs[i].pvcName !in allocation {
          return false, map[], map[];
        }
      }
    }

    /** The keys of the map, then sorted. */
    static method SortDevices(infos: DiskCache.Disks) returns (order: seq<DevId>)
      ensures DeviceOrder(order, infos)
    {
      var keys := [];
      var todo := infos.Keys;
      while todo != {}
        invariant todo <= infos.Keys && NoRepeats(keys)
        invariant forall d :: d in keys <==> d in infos.Keys - todo
      {
        var d :| d in todo;
        assert d !in keys;
        todo := todo - {d};
        keys := keys + [d];
      }
      order := SortDescending(keys, Guaranteed(infos));
      PermutedNoRepeats(keys, order);
      forall i, j | 0 <= i < j < |order| && order[i] in infos && order[j] in infos
        ensures infos[order[i]].ga.total >= infos[order[j]].ga.total
      {
        assert Guaranteed(infos)(order[i]) >= Guaranteed(infos)(order[j]);
      }
    }
  }

  /** What the loops of Pack keep. */
  datatype State = State(bins: Bins, volToDev: map<string, DevId>, allocation: Claims)

  /** How they end: all volumes done, or the state before the one that stopped them. */
  datatype Ending = Ending(ok: bool, last: State)

  /** Pack fails at volume `n`: the disks keep what was placed before it. */
  ghost predicate StuckAt(order: seq<DevId>, infos: DiskCache.Disks, start: Bins, vs: seq<Volume>, n: nat, bins: Bins)
    requires Ready(order, infos, start)
  {
    && n < |vs| && Accepts(vs[..n], PackAll(order, infos, start, vs[..n]).places)
    && !Accepts(vs[..n + 1], PackAll(order, infos, start, vs[..n + 1]).places)
    && bins == PackAll(order, infos, start, vs[..n]).bins
  }

  lemma StillReady(order: seq<DevId>, infos: DiskCache.Disks, bins: Bins, v: Volume)
    requires Ready(order, infos, bins)
    ensures var place := FirstFit(order, infos, bins, v);
            && (place.Some? ==> place.value in infos && place.value in bins)
            && Ready(order, infos, AfterPlace(infos, bins, v, place))
  {
    FirstFitFits(order, infos, bins, v);
  }

  /** The volumes from `i` on, until one has no allocated claim. */
  function PackFrom(order: seq<DevId>, infos: DiskCache.Disks, s: State, vs: seq<Volume>, i: nat): Ending
    requires i <= |vs| && Ready(order, infos, s.bins)
    decreases |vs| - i
  {
    if i == |vs| then Ending(true, s)
    else
      StillReady(order, infos, s.bins, vs[i]);
      var place := FirstFit(order, infos, s.bins, vs[i]);
      var next := State(AfterPlace(infos, s.bins, vs[i], place), Mapped(s.volToDev, vs[i], place),
                        Recorded(s.allocation, vs[i], place));
      if vs[i].pvcName in next.allocation then PackFrom(order, infos, next, vs, i + 1) else Ending(false, s)
  }

  lemma PackFromIs(order: seq<DevId>, infos: DiskCache.Disks, start: Bins, vs: seq<Volume>)
    requires Ready(order, infos, start)
    ensures var r, p := PackFrom(order, infos, State(start, map[], map[]), vs, 0), PackAll(order, infos, start, vs);
            && (r.ok <==> Accepts(vs, p.places))
            && (r.ok ==> r.last == State(p.bins, VolToDev(vs, p.places), Allocation(vs, p.places)))
            && (!r.ok ==> exists n :: StuckAt(order, infos, start, vs, n, r.last.bins))
  {
    assert vs[..0] == [];
    PackFromFollows(order, infos, start, vs, 0, State(start, map[], map[]));
  }

  lemma {:induction false} PackFromFollows(order: seq<DevId>, infos: DiskCache.Disks, start: Bins, vs: seq<Volume>,
                                           i: nat, s: State)
    requires Ready(order, infos, start) && i <= |vs| && Ready(order, infos, s.bins)
    requires Follows(order, infos, start, vs[..i], s.bins, s.volToDev, s.allocation)
    requires Accepts(vs[..i], PackAll(order, infos, start, vs[..i]).places)
    ensures var r, p := PackFrom(order, infos, s, vs, i), PackAll(order, infos, start, vs);
            && (r.ok <==> Accepts(vs, p.places))
            && (r.ok ==> Follows(order, infos, start, vs, r.last.bins, r.last.volToDev, r.last.allocation))
            && (!r.ok ==> exists n :: StuckAt(order, infos, start, vs, n, r.last.bins))
    decreases |vs| - i
  {
    if i == |vs| {
      assert vs[..i] == vs;
    } else {
      StillReady(order, infos, s.bins, vs[i]);
      FollowStep(order, infos, start, vs, i, s.bins, s.volToDev, s.allocation);
      var place := FirstFit(order, infos, s.bins, vs[i]);
      var next := State(AfterPlace(infos, s.bins, vs[i], place), Mapped(s.volToDev, vs[i], place),
                        Recorded(s.allocation, vs[i], place));
      if vs[i].pvcName in next.allocation {
        PackFromFollows(order, infos, start, vs, i + 1, next);
      } else {
        RefusedEarly(order, infos, start, vs, i + 1);
        assert StuckAt(order, infos, start, vs, i, s.bins);
      }
    }
  }

  ghost predicate Follows(order: seq<DevId>, infos: DiskCache.Disks, start: Bins, vs: seq<Volume>,
                          bins: Bins, volToDev: map<string, DevId>, allocation: Claims)
    requires Ready(order, infos, start)
  {
    var p := PackAll(order, infos, start, vs);
    bins == p.bins && volToDev == VolToDev(vs, p.places) && allocation == Allocation(vs, p.places)
  }

  /** One more volume. */
  lemma PackStep(order: seq<DevId>, infos: DiskCache.Disks, start: Bins, vs: seq<Volume>, i: nat)
    requires Ready(order, infos, start) && i < |vs|
    ensures var q, p := PackAll(order, infos, start, vs[..i]), PackAll(order, infos, start, vs[..i + 1]);
            var place := FirstFit(order, infos, q.bins, vs[i]);
            && p.places == q.places + [place]
            && (place.Some? ==> place.value in infos && place.value in q.bins)
            && p.bins == AfterPlace(infos, q.bins, vs[i], place)
            && Allocation(vs[..i + 1], p.places) == Recorded(Allocation(vs[..i], q.places), vs[i], place)
            && VolToDev(vs[..i + 1], p.places) == Mapped(VolToDev(vs[..i], q.places), vs[i], place)
            && (Accepts(vs[..i + 1], p.places) <==>
                Accepts(vs[..i], q.places) && vs[i].pvcName in Allocation(vs[..i + 1], p.places))
  {
    var q, p := PackAll(order, infos, start, vs[..i]), PackAll(order, infos, start, vs[..i + 1]);
    assert vs[..i + 1][..i] == vs[..i] && vs[..i + 1][i] == vs[i];
    FirstFitFits(order, infos, q.bins, vs[i]);
    assert p.places[..i] == q.places;
  }

  function Recorded(allocation: Claims, v: Volume, place: Option<DevId>): Claims {
    if place.Some? then allocation[v.pvcName := PvcInfo(place.value, v.size, false)] else allocation
  }

  function Mapped(volToDev: map<string, DevId>, v: Volume, place: Option<DevId>): map<string, DevId> {
    if place.Some? then volToDev[v.name := place.value] else volToDev
  }

  lemma FollowStep(order: seq<DevId>, infos: DiskCache.Disks, start: Bins, vs: seq<Volume>, i: nat,
                   bins: Bins, volToDev: map<string, DevId>, allocation: Claims)
    requires Ready(order, infos, start) && i < |vs| && Ready(order, infos, bins)
    requires Follows(order, infos, start, vs[..i], bins, volToDev, allocation)
    ensures var place := FirstFit(order, infos, bins, vs[i]);
            && (place.Some? ==> place.value in infos && place.value in bins)
            && Ready(order, infos, AfterPlace(infos, bins, vs[i], place))
            && Follows(order, infos, start, vs[..i + 1], AfterPlace(infos, bins, vs[i], place),
                       Mapped(volToDev, vs[i], place), Recorded(allocation, vs[i], place))
            && (Accepts(vs[..i + 1], PackAll(order, infos, start, vs[..i + 1]).places) <==>
                && Accepts(vs[..i], PackAll(order, infos, start, vs[..i]).places)
                && vs[i].pvcName in Recorded(allocation, vs[i], place))
  {
    PackStep(order, infos, start, vs, i);
  }

  lemma {:induction false} RefusedEarly(order: seq<DevId>, infos: DiskCache.Disks, bins: Bins, vs: seq<Volume>, n: nat)
    requires Ready(order, infos, bins) && n <= |vs|
    requires !Accepts(vs[..n], PackAll(order, infos, bins, vs[..n]).places)
    ensures !Accepts(vs, PackAll(order, infos, bins, vs).places)
    decreases |vs| - n
  {
    if n == |vs| {
      assert vs[..n] == vs;
    } else {
      var p := PackAll(order, infos, bins, vs[..n + 1]);
      assert vs[..n + 1][..n] == vs[..n];
      assert p.places[..n] == PackAll(order, infos, bins, vs[..n]).places;
      RefusedEarly(order, infos, bins, vs, n + 1);
    }
  }

  // ---------------------------------------------------------------- success

  /** Some volume up to `n` that has this claim was placed. */
  predicate ClaimPlaced(vs: seq<Volume>, places: seq<Option<DevId>>, n: int, pvc: string)
    requires |places| == |vs|
  {
    exists i | 0 <= i < |vs| :: i <= n && places[i].Some? && vs[i].pvcName == pvc
  }

  lemma {:induction false} AllocatedIff(vs: seq<Volume>, places: seq<Option<DevId>>, pvc: string)
    requires |places| == |vs|
    ensures pvc in Allocation(vs, places) <==> ClaimPlaced(vs, places, |vs|, pvc)
  {
    if vs != [] {
      var last := |vs| - 1;
      AllocatedIff(vs[..last], places[..last], pvc);
      assert forall i | 0 <= i < last :: vs[..last][i] == vs[i] && places[..last][i] == places[i];
    }
  }

  /** The claim of volume `n` was placed, for this volume or an earlier one. */
  predicate Backed(vs: seq<Volume>, places: seq<Option<DevId>>, n: nat)
    requires |places| == |vs| && n < |vs|
  {
    ClaimPlaced(vs, places, n, vs[n].pvcName)
  }

  /** Packing reports success exactly if every volume that found no disk has the claim of an earlier
      volume that did. */
  lemma {:induction false} SuccessIff(vs: seq<Volume>, places: seq<Option<DevId>>)
    requires |places| == |vs|
    ensures Accepts(vs, places) <==> forall n | 0 <= n < |vs| :: Backed(vs, places, n)
  {
    if vs != [] {
      var last := |vs| - 1;
      SuccessIff(vs[..last], places[..last]);
      AllocatedIff(vs, places, vs[last].pvcName);
      assert ClaimPlaced(vs, places, last, vs[last].pvcName) <==> ClaimPlaced(vs, places, |vs|, vs[last].pvcName);
      forall n | 0 <= n < last
        ensures Backed(vs, places, n) <==> Backed(vs[..last], places[..last], n)
      {
        BackedPrefix(vs, places, n);
      }
      assert (forall n | 0 <= n < |vs| :: Backed(vs, places, n)) <==>
             Backed(vs, places, last) && (forall n | 0 <= n < last :: Backed(vs, places, n));
    }
  }

  lemma BackedPrefix(vs: seq<Volume>, places: seq<Option<DevId>>, n: nat)
    requires |places| == |vs| && n < |vs| - 1
    ensures Backed(vs, places, n) <==> Backed(vs[..|vs| - 1], places[..|vs| - 1], n)
  {
    var last := |vs| - 1;
    assert forall i | 0 <= i < last :: vs[..last][i] == vs[i] && places[..last][i] == places[i];
  }

  predicate DistinctClaims(vs: seq<Volume>) {
    forall i, j | 0 <= i < j < |vs| :: vs[i].pvcName != vs[j].pvcName
  }

  /** With distinct claims that is: exactly if every volume found a disk. */
  lemma SuccessPlacesAll(vs: seq<Volume>, places: seq<Option<DevId>>)
    requires |places| == |vs| && DistinctClaims(vs)
    ensures Accepts(vs, places) <==> forall n | 0 <= n < |vs| :: places[n].Some?
  {
    SuccessIff(vs, places);
    forall n | 0 <= n < |vs|
      ensures Backed(vs, places, n) <==> places[n].Some?
    {
    }
  }

  const ONE_DISK := DiskInfo([], [], 0.0, 0.0, Pool(1.0, 1.0, 1.0, false, 0), Pool(1.0, 1.0, 1.0, false, 0), 1, 0)

  function AVolume(name: string): Volume {
    Volume(name, "c", false, 1.0, 0.0, 1, 1, 1)
  }

  lemma OneVolumeFits()
    ensures var infos, bins := map["d" := ONE_DISK], map["d" := Emptied(ONE_DISK)];
            && Ready(["d"], infos, bins)
            && FirstFit(["d"], infos, bins, AVolume("a")) == Some("d")
            && var left := AfterPlace(infos, bins, AVolume("a"), Some("d"));
               Ready(["d"], infos, left) && FirstFit(["d"], infos, left, AVolume("b")) == None
  {
    assert Find(1, []) == DEFAULT;
    assert Need(AVolume("a"), ONE_DISK) == Need(AVolume("b"), ONE_DISK) == Amount(1.0, 0.0, 0);
    assert ["d"][1..] == [];
  }

  lemma {:induction false} PlaceAt(order: seq<DevId>, infos: DiskCache.Disks, bins: Bins, vs: seq<Volume>, n: nat)
    requires Ready(order, infos, bins) && n < |vs|
    ensures PackAll(order, infos, bins, vs).places[n] ==
            FirstFit(order, infos, PackAll(order, infos, bins, vs[..n]).bins, vs[n])
    decreases |vs|
  {
    var last := |vs| - 1;
    var q, p := PackAll(order, infos, bins, vs[..last]), PackAll(order, infos, bins, vs);
    assert p.places == q.places + [FirstFit(order, infos, q.bins, vs[last])];
    if n < last {
      assert vs[..last][..n] == vs[..n];
      PlaceAt(order, infos, bins, vs[..last], n);
      assert p.places[n] == q.places[n];
    }
  }

  /** When packing succeeds and claims are distinct, every volume is on the first disk that could take
      it at that point, and no disk gives more bandwidth or space than it had to start with. */
  lemma PackingSound(order: seq<DevId>, infos: DiskCache.Disks, bins: Bins, vs: seq<Volume>)
    requires Ready(order, infos, Start(bins, infos)) && DistinctClaims(vs)
    requires Accepts(vs, PackAll(order, infos, Start(bins, infos), vs).places)
    ensures var start := Start(bins, infos);
            var p := PackAll(order, infos, start, vs);
            && (forall n | 0 <= n < |vs| ::
                  && p.places[n].Some?
                  && p.places[n] == FirstFit(order, infos, PackAll(order, infos, start, vs[..n]).bins, vs[n]))
            && (forall d <- infos ::
                  var rd, wr := ReadOn(vs, p.places, d, infos[d].readRatio),
                                WriteOn(vs, p.places, d, infos[d].writeRatio);
                  && (PlacedOn(p.places, d) ==>
                        SizeOn(vs, p.places, d) <= infos[d].capacity - infos[d].requestedDiskSpace)
                  && (GuaranteedOn(vs, p.places, d) ==>
                        rd <= infos[d].ga.rd && wr <= infos[d].ga.wr && rd + wr <= infos[d].ga.total))
  {
    var start := Start(bins, infos);
    SuccessPlacesAll(vs, PackAll(order, infos, start, vs).places);
    forall n | 0 <= n < |vs|
      ensures PackAll(order, infos, start, vs).places[n] ==
              FirstFit(order, infos, PackAll(order, infos, start, vs[..n]).bins, vs[n])
    {
      PlaceAt(order, infos, start, vs, n);
    }
    forall d | d in infos
      ensures var p := PackAll(order, infos, start, vs);
              && Reduced(start[d], p.bins[d], Taken(infos, vs, p.places, d))
              && Covered(p.bins[d], PlacedOn(p.places, d), GuaranteedOn(vs, p.places, d))
    {
      PackingCovered(order, infos, start, vs, d);
    }
    forall d | d in infos
      ensures Taken(infos, vs, PackAll(order, infos, start, vs).places, d) ==
              Amount(ReadOn(vs, PackAll(order, infos, start, vs).places, d, infos[d].readRatio),
                     WriteOn(vs, PackAll(order, infos, start, vs).places, d, infos[d].writeRatio),
                     SizeOn(vs, PackAll(order, infos, start, vs).places, d))
    {
      TakenIs(infos, vs, PackAll(order, infos, start, vs).places, d);
    }
  }

  /** Two volumes of one claim on a disk with room for one: success, with one volume left out. */
  lemma SharedClaimHidesFailure()
    ensures var infos, bins := map["d" := ONE_DISK], map["d" := Emptied(ONE_DISK)];
            var vs := [AVolume("a"), AVolume("b")];
            && Ready(["d"], infos, bins)
            && var p := PackAll(["d"], infos, bins, vs);
               Accepts(vs, p.places) && p.places[1].None?
  {
    var vs := [AVolume("a"), AVolume("b")];
    SecondOfTwo(vs);
    assert vs[..2] == vs;
  }

  lemma SecondOfTwo(vs: seq<Volume>)
    requires vs == [AVolume("a"), AVolume("b")]
    ensures var infos, bins := map["d" := ONE_DISK], map["d" := Emptied(ONE_DISK)];
            && Ready(["d"], infos, bins)
            && var p := PackAll(["d"], infos, bins, vs[..2]);
               Accepts(vs[..2], p.places) && p.places[1].None?
  {
    OneVolumeFits();
    FirstOfTwo(vs);
    PlacesStep(["d"], map["d" := ONE_DISK], map["d" := Emptied(ONE_DISK)], vs, 1);
    UnplacedAccepted(vs, 1, [Some("d")]);
  }

  lemma PlacesStep(order: seq<DevId>, infos: DiskCache.Disks, start: Bins, vs: seq<Volume>, i: nat)
    requires Ready(order, infos, start) && i < |vs|
    ensures var q := PackAll(order, infos, start, vs[..i]);
            PackAll(order, infos, start, vs[..i + 1]).places == q.places + [FirstFit(order, infos, q.bins, vs[i])]
  {
    PackStep(order, infos, start, vs, i);
  }

  /** A volume that finds no disk is accepted if its claim is recorded already. */
  lemma UnplacedAccepted(vs: seq<Volume>, i: nat, places: seq<Option<DevId>>)
    requires i < |vs| && |places| == i && Accepts(vs[..i], places) && vs[i].pvcName in Allocation(vs[..i], places)
    ensures Accepts(vs[..i + 1], places + [None])
  {
    assert vs[..i + 1][..i] == vs[..i] && (places + [None])[..i] == places;
  }

  lemma FirstOfTwo(vs: seq<Volume>)
    requires vs == [AVolume("a"), AVolume("b")]
    ensures var infos, bins := map["d" := ONE_DISK], map["d" := Emptied(ONE_DISK)];
            && Ready(["d"], infos, bins)
            && var p := PackAll(["d"], infos, bins, vs[..1]);
               && p.bins == AfterPlace(infos, bins, AVolume("a"), Some("d")) && p.places == [Some("d")]
               && Accepts(vs[..1], p.places) && "c" in Allocation(vs[..1], p.places)
  {
    OneVolumeFits();
    PackStep(["d"], map["d" := ONE_DISK], map["d" := Emptied(ONE_DISK)], vs, 0);
    assert vs[..0] == [];
  }

  // ---------------------------------------------------------------- the disk-space check

  /** What a claim adds to the space asked of one disk. */
  function SpaceOn(d: DevId): PvcInfo -> Amount {
    (i: PvcInfo) => if !i.reuse && i.devId == d then Amount(0.0, 0.0, i.reqStorage) else Zero
  }

  /** The space that new claims ask of a disk. */
  ghost function Space(claims: Claims, d: DevId): int {
    Sum(claims, SpaceOn(d)).n
  }

  lemma SpaceInsert(claims: Claims, c: string, info: PvcInfo, d: DevId)
    requires c !in claims
    ensures Space(claims[c := info], d) ==
            Space(claims, d) + if !info.reuse && info.devId == d then info.reqStorage else 0
    ensures NewOn(claims[c := info], d) <==> NewOn(claims, d) || (!info.reuse && info.devId == d)
  {
    SumInsert(claims, SpaceOn(d), c, info);
    NewInsert(claims, c, info, d);
  }

  predicate NewOn(claims: Claims, d: DevId) {
    exists c <- claims :: !claims[c].reuse && claims[c].devId == d
  }

  /** AdmitPod's sums of the space of new claims. */
  method StorageRequests(claims: Claims) returns (s: map<DevId, int>)
    ensures forall d :: SpaceIs(s, claims, d)
  {
    s := map[];
    var todo := claims.Keys;
    forall d
      ensures SpaceIs(s, claims - todo, d)
    {
      assert claims - todo == map[];
    }
    while todo != {}
      invariant todo <= claims.Keys
      invariant forall d :: SpaceIs(s, claims - todo, d)
    {
      var c :| c in todo;
      var info := claims[c];
      ghost var was, before := s, claims - todo;
      todo := todo - {c};
      assert claims - todo == before[c := info] && c !in before;
      if !info.reuse {
        if info.devId in s {
          s := s[info.devId := s[info.devId] + info.reqStorage];
        } else {
          s := s[info.devId := info.reqStorage];
        }
      }
      forall d
        ensures SpaceIs(s, claims - todo, d)
      {
        assert SpaceIs(was, before, d);
        SpaceOneMore(was, before, c, info, s, d);
      }
    }
    assert claims - todo == claims;
  }

  /** The sums have the space of the new claims on a disk, if there are any. */
  ghost predicate SpaceIs(s: map<DevId, int>, claims: Claims, d: DevId) {
    (d in s <==> NewOn(claims, d)) && Space(claims, d) == if d in s then s[d] else 0
  }

  lemma SpaceOneMore(s: map<DevId, int>, claims: Claims, c: string, info: PvcInfo, r: map<DevId, int>, d: DevId)
    requires SpaceIs(s, claims, d) && c !in claims
    requires r == if info.reuse then s
                  else s[info.devId := (if info.devId in s then s[info.devId] else 0) + info.reqStorage]
    ensures SpaceIs(r, claims[c := info], d)
  {
    SpaceInsert(claims, c, info, d);
  }

  lemma NewInsert(claims: Claims, c: string, info: PvcInfo, d: DevId)
    requires c !in claims
    ensures NewOn(claims[c := info], d) <==> NewOn(claims, d) || (!info.reuse && info.devId == d)
  {
    var more := claims[c := info];
    if NewOn(claims, d) {
      var x :| x in claims && !claims[x].reuse && claims[x].devId == d;
      assert x in more && more[x] == claims[x];
    }
    if !info.reuse && info.devId == d {
      assert c in more && more[c] == info;
    }
  }

  /** The space asked of a disk is the space of the volumes that were placed on it. */
  lemma {:induction false} SpaceIsTaken(infos: DiskCache.Disks, vs: seq<Volume>, places: seq<Option<DevId>>, d: DevId)
    requires |places| == |vs| && d in infos && DistinctClaims(vs)
    ensures Space(Allocation(vs, places), d) == Taken(infos, vs, places, d).n
    ensures NewOn(Allocation(vs, places), d) <==> PlacedOn(places, d)
  {
    if vs != [] {
      var last := |vs| - 1;
      SpaceIsTaken(infos, vs[..last], places[..last], d);
      LastPlace(vs, places, d);
      NewClaim(vs, places);
      if places[last].Some? {
        ClaimTaken(Allocation(vs[..last], places[..last]), vs[last], places[last].value, d);
      }
    }
  }

  lemma NewClaim(vs: seq<Volume>, places: seq<Option<DevId>>)
    requires |places| == |vs| && vs != [] && DistinctClaims(vs)
    ensures vs[|vs| - 1].pvcName !in Allocation(vs[..|vs| - 1], places[..|vs| - 1])
  {
    var last := |vs| - 1;
    AllocatedIff(vs[..last], places[..last], vs[last].pvcName);
  }

  lemma ClaimTaken(before: Claims, v: Volume, place: DevId, d: DevId)
    requires v.pvcName !in before
    ensures var after := Recorded(before, v, Some(place));
            && Space(after, d) == Space(before, d) + (if place == d then v.size else 0)
            && (NewOn(after, d) <==> NewOn(before, d) || place == d)
  {
    SpaceInsert(before, v.pvcName, PvcInfo(place, v.size, false), d);
  }

  predicate Sized(vs: seq<Volume>) {
    forall i | 0 <= i < |vs| :: vs[i].size >= 0
  }

  ghost predicate SizedClaims(claims: Claims) {
    forall c <- claims :: claims[c].reqStorage >= 0
  }

  /** A claim that is recorded again counts where it was placed last, and only once. */
  lemma Rerecorded(before: Claims, v: Volume, place: DevId, d: DevId)
    requires v.pvcName in before && SizedClaims(before) && v.size >= 0
    ensures var after := Recorded(before, v, Some(place));
            && SizedClaims(after)
            && Space(after, d) <= Space(before, d) + (if place == d then v.size else 0)
            && (NewOn(after, d) ==> NewOn(before, d) || place == d)
  {
    SpaceReplace(before, v.pvcName, PvcInfo(place, v.size, false), d);
    NewReplace(before, v.pvcName, PvcInfo(place, v.size, false), d);
  }

  lemma SpaceReplace(claims: Claims, c: string, info: PvcInfo, d: DevId)
    requires c in claims && claims[c].reqStorage >= 0
    ensures Space(claims[c := info], d) <=
            Space(claims, d) + if !info.reuse && info.devId == d then info.reqStorage else 0
  {
    SumReplace(claims, SpaceOn(d), c, info);
  }

  lemma NewReplace(claims: Claims, c: string, info: PvcInfo, d: DevId)
    ensures NewOn(claims[c := info], d) ==> NewOn(claims, d) || (!info.reuse && info.devId == d)
  {
    var more := claims[c := info];
    if NewOn(more, d) {
      var x :| x in more && !more[x].reuse && more[x].devId == d;
      assert x != c ==> x in claims && claims[x] == more[x];
    }
  }

  /** Also when volumes share a claim, the space asked of a disk is at most that of the volumes placed
      on it. */
  lemma {:induction false} SpaceAtMostTaken(infos: DiskCache.Disks, vs: seq<Volume>, places: seq<Option<DevId>>,
                                            d: DevId)
    requires |places| == |vs| && d in infos && Sized(vs)
    ensures SizedClaims(Allocation(vs, places))
    ensures Space(Allocation(vs, places), d) <= Taken(infos, vs, places, d).n
    ensures NewOn(Allocation(vs, places), d) ==> PlacedOn(places, d)
  {
    if vs != [] {
      var last := |vs| - 1;
      var before := Allocation(vs[..last], places[..last]);
      SpaceAtMostTaken(infos, vs[..last], places[..last], d);
      LastPlace(vs, places, d);
      if places[last].Some? {
        if vs[last].pvcName in before {
          Rerecorded(before, vs[last], places[last].value, d);
        } else {
          ClaimTaken(before, vs[last], places[last].value, d);
        }
      }
    }
  }

  /** Two volumes of one claim on two disks: the first disk pays for a volume that no claim asks of it. */
  lemma SharedClaimCountsOnce(infos: DiskCache.Disks, size: nat)
    requires "d" in infos && "e" in infos
    ensures var v := AVolume("a").(size := size);
            var vs, places := [v, v], [Some("d"), Some("e")];
            && Space(Allocation(vs, places), "d") == 0 && Space(Allocation(vs, places), "e") == size
            && Taken(infos, vs, places, "d").n == size
  {
    var v := AVolume("a").(size := size);
    var vs, places := [v, v], [Some("d"), Some("e")];
    assert vs[..1] == [v] && places[..1] == [Some("d")];
    assert [v][..0] == [] && [Some("d")][..0] == [];
    assert Taken(infos, [v], [Some("d")], "d").n == size;
    assert Allocation([v], [Some("d")]) == map[v.pvcName := PvcInfo("d", size, false)];
    var claims := Allocation(vs, places);
    assert claims == map[][v.pvcName := PvcInfo("e", size, false)];
    SpaceInsert(map[], v.pvcName, PvcInfo("e", size, false), "d");
    SpaceInsert(map[], v.pvcName, PvcInfo("e", size, false), "e");
  }

  /** Bound claims do not count: they are all reused. */
  lemma {:induction false} BoundClaimsFree(bound: Claims, claims: Claims, d: DevId)
    requires (forall c <- bound :: bound[c].reuse) && bound.Keys !! claims.Keys
    ensures Space(bound + claims, d) == Space(claims, d)
    ensures NewOn(bound + claims, d) <==> NewOn(claims, d)
    decreases |bound|
  {
    if bound == map[] {
      assert bound + claims == claims;
    } else {
      var c :| c in bound;
      BoundClaimsFree(bound - {c}, claims, d);
      TakenApart(bound, claims, c);
      SpaceInsert(bound - {c} + claims, c, bound[c], d);
    }
  }

  lemma TakenApart(bound: Claims, claims: Claims, c: string)
    requires c in bound && bound.Keys !! claims.Keys
    ensures c !in bound - {c} + claims && bound + claims == (bound - {c} + claims)[c := bound[c]]
  {
  }

  /** A disk as it is handed to the packer: less what the pod's other volumes already ask of it. */
  function Rest(info: DiskInfo, request: Option<IoRequest>, space: int): DiskInfo {
    var r := if request.Some? && request.value.qos == GA && request.value.dev.Some? then
               var q := OrZero(request.value.dev.value.request);
               info.(ga := info.ga.(rd := info.ga.rd - q.inbps, wr := info.ga.wr - q.outbps,
                                    total := info.ga.total - (q.inbps + q.outbps)))
             else info;
    r.(requestedDiskSpace := r.requestedDiskSpace + space)
  }

  method GetRestDisksStatus(disks: DiskCache.Disks, requests: map<DevId, IoRequest>, claims: Claims)
    returns (rest: DiskCache.Disks)
    ensures rest.Keys == disks.Keys
    ensures forall d <- disks :: rest[d] == Rest(disks[d], Lookup(requests, d), Space(claims, d))
  {
    var stMap := StorageRequests(claims);
    rest := map[];
    var todo := disks.Keys;
    while todo != {}
      invariant todo <= disks.Keys && rest.Keys == disks.Keys - todo
      invariant forall d <- rest :: rest[d] == Rest(disks[d], Lookup(requests, d), if d in stMap then stMap[d] else 0)
    {
      var k :| k in todo;
      todo := todo - {k};
      var r := disks[k];
      if k in requests && requests[k].qos == GA && requests[k].dev.Some? {
        var q := OrZero(requests[k].dev.value.request);
        r := r.(ga := r.ga.(rd := r.ga.rd - q.inbps, wr := r.ga.wr - q.outbps,
                            total := r.ga.total - (q.inbps + q.outbps)));
      }
      if k in stMap {
        r := r.(requestedDiskSpace := r.requestedDiskSpace + stMap[k]);
      }
      rest := rest[k := r];
    }
    forall d | d in disks
      ensures rest[d] == Rest(disks[d], Lookup(requests, d), Space(claims, d))
    {
      assert SpaceIs(stMap, claims, d);
    }
  }

  function Lookup(requests: map<DevId, IoRequest>, d: DevId): Option<IoRequest> {
    if d in requests then Some(requests[d]) else None
  }

  function Free(info: DiskInfo): int {
    info.capacity - info.requestedDiskSpace
  }

  /** The space check of CanAdmitPod on one disk. */
  predicate SpaceSuffices(info: DiskInfo, storage: map<DevId, int>, d: DevId) {
    (if d in storage then storage[d] else 0) <= Free(info)
  }

  /** The pod's bound claims, its remaining volumes packed on the remaining disks, and then the space
      check of the cached disks: it fails exactly on disks that got no new claim and are over-committed
      already.  Volumes may share a claim, if no size is negative. */
  lemma SpaceCheckIff(disks: DiskCache.Disks, infos: DiskCache.Disks, request: Option<IoRequest>, bound: Claims,
                      order: seq<DevId>, bins: Bins, vs: seq<Volume>, storage: map<DevId, int>, d: DevId)
    requires d in disks && d in infos && (Sized(vs) || DistinctClaims(vs))
    requires infos[d] == Rest(disks[d], request, Space(bound, d))
    requires Ready(order, infos, Start(bins, infos))
    requires var claims := Allocation(vs, PackAll(order, infos, Start(bins, infos), vs).places);
             && (forall c <- bound :: bound[c].reuse) && bound.Keys !! claims.Keys
             && SpaceIs(storage, bound + claims, d)
    ensures var p := PackAll(order, infos, Start(bins, infos), vs);
            SpaceSuffices(disks[d], storage, d) <==> PlacedOn(p.places, d) || Free(disks[d]) >= 0
  {
    var p := PackAll(order, infos, Start(bins, infos), vs);
    BoundClaimsFree(bound, Allocation(vs, p.places), d);
    if Sized(vs) {
      SpaceAtMostTaken(infos, vs, p.places, d);
    } else {
      SpaceIsTaken(infos, vs, p.places, d);
    }
    PackingCovered(order, infos, Start(bins, infos), vs, d);
    RestKeepsFree(disks[d], request, bound, d);
    FreeCovers(infos[d], p.bins[d], Taken(infos, vs, p.places, d), Start(bins, infos)[d]);
  }

  /** An over-committed disk: a pod that asks for no space at all is refused there, and would be
      admitted if the disk were exactly full. */
  lemma OverCommittedRefused()
    ensures var full, over := ONE_DISK.(requestedDiskSpace := 1), ONE_DISK.(requestedDiskSpace := 2);
            var io := IoRequest(DiskIO, BE, Some(DevRequirement("d", None, None, None, None)));
            var reqs := map["d" := DeviceRequest(io, 0)];
            && !SpaceSuffices(over, map[], "d") && SpaceSuffices(full, map[], "d")
            && DiskCache.SoundRequests(reqs)
            && !DiskCache.CanAdmit(map["d" := over], reqs) && DiskCache.CanAdmit(map["d" := full], reqs)
  {
    var request := DeviceRequest(IoRequest(DiskIO, BE, Some(DevRequirement("d", None, None, None, None))), 0);
    assert DiskCache.SoundRequests(map["d" := request]);
    assert DiskCache.Fits(ONE_DISK.(requestedDiskSpace := 1), request);
    assert "d" in map["d" := request] && !DiskCache.Fits(ONE_DISK.(requestedDiskSpace := 2), request);
  }

  lemma RestKeepsFree(info: DiskInfo, request: Option<IoRequest>, bound: Claims, d: DevId)
    requires forall c <- bound :: bound[c].reuse
    ensures Free(Rest(info, request, Space(bound, d))) == Free(info)
  {
    BoundClaimsFree(bound, map[], d);
    assert bound + map[] == bound;
  }

  lemma FreeCovers(info: DiskInfo, after: Bin, taken: Amount, before: Bin)
    requires before == Emptied(info) && Reduced(before, after, taken)
    ensures after.size >= 0 <==> taken.n <= Free(info)
  {
  }
}
