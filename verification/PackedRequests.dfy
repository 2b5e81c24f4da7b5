/** What a pod is charged for the volumes that were packed, against what the packer took for them
    (pkg/scheduler/blockio/handle.go: getRestVolumes, GetRequestByAnnotation, CanAdmitPod; bp.go).

    The packer translates a volume's requests itself, and knows neither the minimum of a disk nor
    requests of which only one side could be parsed; getDeviceRequest knows both. */
module PackedRequests {
  import opened IoTypes
  import opened MappingRatios
  import opened RequestMerge
  import opened Sums
  import DiskCache
  import Packer
  import VolumeRequests

  /** A volume of a claim that is not bound yet, with what the pod says about it. */
  datatype Claimed = Claimed(name: string, pvcName: string, anno: Option<VolumeRequests.VolumeAnno>, size: int)

  function ReadOf(c: Claimed): Option<VolumeRequests.Throughput> {
    if c.anno.Some? then c.anno.value.reqRead else None
  }

  function WriteOf(c: Claimed): Option<VolumeRequests.Throughput> {
    if c.anno.Some? then c.anno.value.reqWrite else None
  }

  /** getRestVolumes: guaranteed only if both requests could be parsed. */
  function VolumeOf(c: Claimed): Packer.Volume {
    var rd, wr := ReadOf(c), WriteOf(c);
    Packer.Volume(c.name, c.pvcName, rd.None? || wr.None?,
                  if rd.Some? then rd.value.bw as real / 1048576.0 else 0.0,
                  if wr.Some? then wr.value.bw as real / 1048576.0 else 0.0,
                  if rd.Some? then rd.value.bs else 0, if wr.Some? then wr.value.bs else 0, c.size)
  }

  function VolumesOf(cs: seq<Claimed>): seq<Packer.Volume> {
    seq(|cs|, i requires 0 <= i < |cs| => VolumeOf(cs[i]))
  }

  method GetRestVolumes(cs: seq<Claimed>) returns (vs: seq<Packer.Volume>)
    ensures vs == VolumesOf(cs)
  {
    vs := [];
    for i := 0 to |cs|
      invariant vs == VolumesOf(cs)[..i]
    {
      var c := cs[i];
      var bestEffort, rawRead, rawWrite, bsRead, bsWrite := false, 0.0, 0.0, 0, 0;
      if c.anno.Some? {
        if c.anno.value.reqRead.Some? {
          rawRead, bsRead := c.anno.value.reqRead.value.bw as real / 1048576.0, c.anno.value.reqRead.value.bs;
        } else {
          bestEffort := true;
        }
        if c.anno.value.reqWrite.Some? {
          rawWrite, bsWrite := c.anno.value.reqWrite.value.bw as real / 1048576.0, c.anno.value.reqWrite.value.bs;
        } else {
          bestEffort := true;
        }
      } else {
        bestEffort := true;
      }
      vs := vs + [Packer.Volume(c.name, c.pvcName, bestEffort, rawRead, rawWrite, bsRead, bsWrite, c.size)];
    }
  }

  // ---------------------------------------------------------------- one volume

  /** What the scheduler asks for on behalf of a volume on a disk. */
  function RequestOf(c: Claimed, d: DevId, info: DiskInfo): IoRequest
    requires VolumeRequests.UsableDisk(info)
  {
    if c.anno.Some? then VolumeRequests.RequestFor(d, info, c.anno.value) else VolumeRequests.BestEffort(d)
  }

  function Cost(t: Option<VolumeRequests.Throughput>, ratios: seq<MappingRatio>): real {
    if t.Some? then VolumeRequests.Charged(t.value, ratios) else 0.0
  }

  /** Nothing was said about the volume, or both its requests are given and not below the minimum; or
      the minimum is zero and nothing is asked. */
  predicate Plain(c: Claimed, info: DiskInfo) {
    var rd, wr := Cost(ReadOf(c), info.readRatio), Cost(WriteOf(c), info.writeRatio);
    || c.anno.None? || VolumeRequests.Unspecified(c.anno.value)
    || if ReadOf(c).Some? && WriteOf(c).Some? then rd >= info.beDefaultRead && wr >= info.beDefaultWrite
       else info.beDefaultRead == 0.0 && info.beDefaultWrite == 0.0 && rd <= 0.0 && wr <= 0.0
  }

  predicate Minimums(info: DiskInfo) {
    info.beDefaultRead >= 0.0 && info.beDefaultWrite >= 0.0
  }

  /** What is asked, for reading and writing. */
  function Asked(r: IoRequest): Amount {
    if r.dev.Some? then
      var q := OrZero(r.dev.value.request);
      Amount(q.inbps, q.outbps, 0)
    else Zero
  }

  /** What the packer takes for a volume. */
  function Taken(c: Claimed, info: DiskInfo): Amount {
    var v := VolumeOf(c);
    if v.bestEffort then Zero
    else Amount(v.rawRead * Find(v.bsRead, info.readRatio).ratio,
                v.rawWrite * Find(v.bsWrite, info.writeRatio).ratio, 0)
  }

  /** The packer takes no more than the pod is charged, and the same exactly if the volume is plain. */
  lemma TakenIsAskedIff(c: Claimed, d: DevId, info: DiskInfo)
    requires VolumeRequests.UsableDisk(info) && Minimums(info)
    ensures var t, a := Taken(c, info), Asked(RequestOf(c, d, info));
            t.rd <= a.rd && t.wr <= a.wr && (t == a <==> Plain(c, info))
  {
    var rd, wr := Cost(ReadOf(c), info.readRatio), Cost(WriteOf(c), info.writeRatio);
    AskedIs(c, d, info);
    TakenIsCost(c, info);
    Raises(rd, info.beDefaultRead);
    Raises(wr, info.beDefaultWrite);
  }

  lemma Raises(x: real, least: real)
    requires least >= 0.0
    ensures var y := VolumeRequests.Most(x, least);
            x <= y && 0.0 <= y && (x == y <==> x >= least) && (y == 0.0 <==> least == 0.0 && x <= 0.0)
  {
  }

  lemma AskedIs(c: Claimed, d: DevId, info: DiskInfo)
    requires VolumeRequests.UsableDisk(info)
    ensures Asked(RequestOf(c, d, info)) ==
            if c.anno.None? || VolumeRequests.Unspecified(c.anno.value) then Zero
            else Amount(VolumeRequests.Most(Cost(ReadOf(c), info.readRatio), info.beDefaultRead),
                        VolumeRequests.Most(Cost(WriteOf(c), info.writeRatio), info.beDefaultWrite), 0)
  {
    if c.anno.Some? {
      VolumeRequests.RequestsAreRaised(d, info, c.anno.value);
    }
  }

  lemma TakenIsCost(c: Claimed, info: DiskInfo)
    ensures Taken(c, info) ==
            if ReadOf(c).Some? && WriteOf(c).Some?
            then Amount(Cost(ReadOf(c), info.readRatio), Cost(WriteOf(c), info.writeRatio), 0) else Zero
  {
  }

  /** A volume of 1 on each side, on a disk with a minimum of 6: it is charged 6. */
  lemma SmallVolumeRaised(d: DevId)
    ensures var pool := Pool(5.0, 5.0, 10.0, false, 0);
            var info := DiskInfo([], [], 6.0, 6.0, pool, Pool(20.0, 20.0, 40.0, false, 0), 100, 0);
            var t := Some(VolumeRequests.Throughput(1048576, 4000));
            var c := Claimed("v", "c", Some(VolumeRequests.VolumeAnno(t, t, None, None)), 1);
            && VolumeRequests.UsableDisk(info)
            && Packer.CanFit(Packer.Emptied(info), VolumeOf(c), info)
            && !DiskCache.Fits(info, DeviceRequest(RequestOf(c, d, info), 1))
  {
    assert Find(4000, []) == MappingRatio(32000, 1.0);
  }

  /** A volume with a request for reading only: the packer takes nothing, and the pod is charged. */
  lemma HalfGivenVolume(d: DevId)
    ensures var pool := Pool(5.0, 5.0, 10.0, false, 0);
            var info := DiskInfo([], [], 1.0, 1.0, pool, Pool(20.0, 20.0, 40.0, false, 0), 100, 0);
            var t := Some(VolumeRequests.Throughput(8388608, 4000));
            var c := Claimed("v", "c", Some(VolumeRequests.VolumeAnno(t, None, None, None)), 1);
            && VolumeRequests.UsableDisk(info)
            && Packer.CanFit(Packer.Emptied(info), VolumeOf(c), info)
            && !DiskCache.Fits(info, DeviceRequest(RequestOf(c, d, info), 1))
  {
    assert Find(4000, []) == MappingRatio(32000, 1.0);
  }

  // ---------------------------------------------------------------- all volumes on a disk

  /** What the pod is charged for the volumes placed on a disk. */
  function AskedOn(cs: seq<Claimed>, places: seq<Option<DevId>>, d: DevId, info: DiskInfo): Amount
    requires |places| == |cs| && VolumeRequests.UsableDisk(info)
  {
    if cs == [] then Zero
    else
      var last := |cs| - 1;
      var before := AskedOn(cs[..last], places[..last], d, info);
      if places[last] == Some(d) then before.Plus(Asked(RequestOf(cs[last], d, info))) else before
  }

  function TakenOn(cs: seq<Claimed>, places: seq<Option<DevId>>, d: DevId, info: DiskInfo): Amount
    requires |places| == |cs|
  {
    if cs == [] then Zero
    else
      var last := |cs| - 1;
      var before := TakenOn(cs[..last], places[..last], d, info);
      if places[last] == Some(d) then before.Plus(Taken(cs[last], info)) else before
  }

  predicate PlainOn(cs: seq<Claimed>, places: seq<Option<DevId>>, d: DevId, info: DiskInfo)
    requires |places| == |cs|
  {
    forall i | 0 <= i < |cs| && places[i] == Some(d) :: Plain(cs[i], info)
  }

  /** On a disk the pod is charged what the packer took exactly if every volume placed there is plain,
      and never less. */
  lemma {:induction false} ChargedIsTakenIff(cs: seq<Claimed>, places: seq<Option<DevId>>, d: DevId, info: DiskInfo)
    requires |places| == |cs| && VolumeRequests.UsableDisk(info) && Minimums(info)
    ensures var t, a := TakenOn(cs, places, d, info), AskedOn(cs, places, d, info);
            t.rd <= a.rd && t.wr <= a.wr && (t == a <==> PlainOn(cs, places, d, info))
  {
    if cs != [] {
      var last := |cs| - 1;
      ChargedIsTakenIff(cs[..last], places[..last], d, info);
      TakenIsAskedIff(cs[last], d, info);
      LastPlain(cs, places, d, info);
      Counts(cs[..last], places[..last], d, info);
      var t, a := TakenOn(cs[..last], places[..last], d, info), AskedOn(cs[..last], places[..last], d, info);
      SameSums(t, a, Taken(cs[last], info), Asked(RequestOf(cs[last], d, info)));
    }
  }

  lemma SameSums(t: Amount, a: Amount, u: Amount, b: Amount)
    requires t.rd <= a.rd && t.wr <= a.wr && u.rd <= b.rd && u.wr <= b.wr && t.n == a.n && u.n == b.n
    ensures t.Plus(u) == a.Plus(b) <==> t == a && u == b
  {
    assert t.Plus(u) == a.Plus(b) ==> t.rd + u.rd == a.rd + b.rd && t.wr + u.wr == a.wr + b.wr;
  }

  lemma {:induction false} Counts(cs: seq<Claimed>, places: seq<Option<DevId>>, d: DevId, info: DiskInfo)
    requires |places| == |cs| && VolumeRequests.UsableDisk(info)
    ensures TakenOn(cs, places, d, info).n == AskedOn(cs, places, d, info).n == 0
  {
    if cs != [] {
      Counts(cs[..|cs| - 1], places[..|cs| - 1], d, info);
    }
  }

  lemma LastPlain(cs: seq<Claimed>, places: seq<Option<DevId>>, d: DevId, info: DiskInfo)
    requires |places| == |cs| && cs != []
    ensures var last := |cs| - 1;
            PlainOn(cs, places, d, info) <==>
            PlainOn(cs[..last], places[..last], d, info) && (places[last] == Some(d) ==> Plain(cs[last], info))
  {
    var last := |cs| - 1;
    assert forall i | 0 <= i < last :: cs[..last][i] == cs[i] && places[..last][i] == places[i];
  }

  /** The packer's own account is the same. */
  lemma {:induction false} PackerTakes(cs: seq<Claimed>, places: seq<Option<DevId>>, d: DevId, infos: DiskCache.Disks)
    requires |places| == |cs| && d in infos
    ensures var p := Packer.Taken(infos, VolumesOf(cs), places, d);
            p.rd == TakenOn(cs, places, d, infos[d]).rd && p.wr == TakenOn(cs, places, d, infos[d]).wr
  {
    if cs != [] {
      var last := |cs| - 1;
      PackerTakes(cs[..last], places[..last], d, infos);
      assert VolumesOf(cs)[..last] == VolumesOf(cs[..last]);
    }
  }

  // ---------------------------------------------------------------- the pod's requests

  predicate DistinctNames(cs: seq<Claimed>) {
    forall i, j | 0 <= i < j < |cs| :: cs[i].name != cs[j].name
  }

  /** The pod's annotations are those of the volumes. */
  predicate Annotates(annos: map<string, VolumeRequests.VolumeAnno>, cs: seq<Claimed>) {
    forall i | 0 <= i < |cs| ::
      && (cs[i].name in annos <==> cs[i].anno.Some?)
      && (cs[i].anno.Some? ==> annos[cs[i].name] == cs[i].anno.value)
  }

  /** What each volume on a disk asks of it. */
  function OnDisk(cs: seq<Claimed>, places: seq<Option<DevId>>, d: DevId, info: DiskInfo): map<string, IoRequest>
    requires |places| == |cs| && VolumeRequests.UsableDisk(info)
  {
    if cs == [] then map[]
    else
      var last := |cs| - 1;
      var before := OnDisk(cs[..last], places[..last], d, info);
      if places[last] == Some(d) then before[cs[last].name := RequestOf(cs[last], d, info)] else before
  }

  predicate NamedOn(cs: seq<Claimed>, places: seq<Option<DevId>>, d: DevId, v: string, i: int)
    requires |places| == |cs|
  {
    0 <= i < |cs| && cs[i].name == v && places[i] == Some(d)
  }

  lemma {:induction false} OnDiskAt(cs: seq<Claimed>, places: seq<Option<DevId>>, d: DevId, info: DiskInfo, v: string)
    requires |places| == |cs| && VolumeRequests.UsableDisk(info) && DistinctNames(cs)
    ensures v in OnDisk(cs, places, d, info) <==> exists i :: NamedOn(cs, places, d, v, i)
    ensures forall i | NamedOn(cs, places, d, v, i) ::
              v in OnDisk(cs, places, d, info) && OnDisk(cs, places, d, info)[v] == RequestOf(cs[i], d, info)
  {
    if cs != [] {
      var last := |cs| - 1;
      OnDiskAt(cs[..last], places[..last], d, info, v);
      NamedBefore(cs, places, d, v);
    }
  }

  lemma NamedBefore(cs: seq<Claimed>, places: seq<Option<DevId>>, d: DevId, v: string)
    requires |places| == |cs| && cs != []
    ensures var last := |cs| - 1;
            && (forall i :: NamedOn(cs, places, d, v, i) <==>
                  if i == last then cs[last].name == v && places[last] == Some(d)
                  else NamedOn(cs[..last], places[..last], d, v, i))
            && ((exists i :: NamedOn(cs, places, d, v, i)) <==>
                (cs[last].name == v && places[last] == Some(d))
                || exists i :: NamedOn(cs[..last], places[..last], d, v, i))
  {
    var last := |cs| - 1;
    forall i
      ensures NamedOn(cs, places, d, v, i) <==>
              if i == last then cs[last].name == v && places[last] == Some(d)
              else NamedOn(cs[..last], places[..last], d, v, i)
    {
    }
    assert NamedOn(cs, places, d, v, last) <==> cs[last].name == v && places[last] == Some(d);
    if i :| NamedOn(cs[..last], places[..last], d, v, i) {
      assert NamedOn(cs, places, d, v, i);
    }
  }

  lemma NotNamedBefore(cs: seq<Claimed>, places: seq<Option<DevId>>, d: DevId)
    requires |places| == |cs| && cs != [] && DistinctNames(cs)
    ensures var last := |cs| - 1;
            forall i :: !NamedOn(cs[..last], places[..last], d, cs[last].name, i)
  {
    var last := |cs| - 1;
    assert forall i | 0 <= i < last :: cs[..last][i] == cs[i] && cs[i].name != cs[last].name;
  }

  lemma {:induction false} MappedAt(cs: seq<Claimed>, places: seq<Option<DevId>>, d: DevId, v: string)
    requires |places| == |cs| && DistinctNames(cs)
    ensures var m := Packer.VolToDev(VolumesOf(cs), places);
            v in m && m[v] == d <==> exists i :: NamedOn(cs, places, d, v, i)
    ensures v in Packer.VolToDev(VolumesOf(cs), places) ==> exists i | 0 <= i < |cs| :: cs[i].name == v
  {
    if cs != [] {
      var last := |cs| - 1;
      assert VolumesOf(cs)[..last] == VolumesOf(cs[..last]);
      MappedAt(cs[..last], places[..last], d, v);
      NamedBefore(cs, places, d, v);
      if cs[last].name == v {
        NotNamedBefore(cs, places, d);
      }
    }
  }

  lemma AskedOfIs(cs: seq<Claimed>, places: seq<Option<DevId>>, annos: map<string, VolumeRequests.VolumeAnno>,
                  disks: DiskCache.Disks, d: DevId)
    requires |places| == |cs| && DistinctNames(cs) && Annotates(annos, cs)
    requires VolumeRequests.UsableDisks(disks) && d in disks
    ensures var m := Packer.VolToDev(VolumesOf(cs), places);
            VolumeRequests.AskedOf(VolumeRequests.Case(m, annos, disks), m.Keys, d) == OnDisk(cs, places, d, disks[d])
  {
    var m := Packer.VolToDev(VolumesOf(cs), places);
    var x, y := VolumeRequests.AskedOf(VolumeRequests.Case(m, annos, disks), m.Keys, d),
                OnDisk(cs, places, d, disks[d]);
    forall v: string
      ensures v in x <==> v in y
      ensures v in x && v in y ==> x[v] == y[v]
    {
      MappedAt(cs, places, d, v);
      OnDiskAt(cs, places, d, disks[d], v);
      if v in y {
        var i :| NamedOn(cs, places, d, v, i);
        assert y[v] == RequestOf(cs[i], d, disks[d]);
      }
    }
  }

  lemma LastIsNew(cs: seq<Claimed>, places: seq<Option<DevId>>, d: DevId, info: DiskInfo)
    requires |places| == |cs| && cs != [] && VolumeRequests.UsableDisk(info) && DistinctNames(cs)
    ensures cs[|cs| - 1].name !in OnDisk(cs[..|cs| - 1], places[..|cs| - 1], d, info)
  {
    var last := |cs| - 1;
    OnDiskAt(cs[..last], places[..last], d, info, cs[last].name);
    NotNamedBefore(cs, places, d);
  }

  lemma SumOneMore(before: map<string, IoRequest>, v: string, r: IoRequest, a: Amount)
    requires v !in before && r.dev.Some?
    requires Sum(before, Count(RequestIn)).rd == a.rd && Sum(before, Count(RequestOut)).rd == a.wr
    ensures Sum(before[v := r], Count(RequestIn)).rd == a.Plus(Asked(r)).rd
    ensures Sum(before[v := r], Count(RequestOut)).rd == a.Plus(Asked(r)).wr
  {
    SumInsert(before, Count(RequestIn), v, r);
    SumInsert(before, Count(RequestOut), v, r);
  }

  lemma {:induction false} SumOnDisk(cs: seq<Claimed>, places: seq<Option<DevId>>, d: DevId, info: DiskInfo)
    requires |places| == |cs| && VolumeRequests.UsableDisk(info) && DistinctNames(cs)
    ensures Sum(OnDisk(cs, places, d, info), Count(RequestIn)).rd == AskedOn(cs, places, d, info).rd
    ensures Sum(OnDisk(cs, places, d, info), Count(RequestOut)).rd == AskedOn(cs, places, d, info).wr
  {
    if cs != [] {
      var last := |cs| - 1;
      var before := OnDisk(cs[..last], places[..last], d, info);
      SumOnDisk(cs[..last], places[..last], d, info);
      LastIsNew(cs, places, d, info);
      if places[last] == Some(d) {
        SumOneMore(before, cs[last].name, RequestOf(cs[last], d, info), AskedOn(cs[..last], places[..last], d, info));
      }
    }
  }

  /** A disk with a guaranteed volume has a guaranteed request. */
  lemma {:induction false} GuaranteedCounts(cs: seq<Claimed>, places: seq<Option<DevId>>, d: DevId, info: DiskInfo)
    requires |places| == |cs| && VolumeRequests.UsableDisk(info) && DistinctNames(cs)
    ensures var n := Sum(OnDisk(cs, places, d, info), Count(RequestIn)).n;
            n >= 0 && (Packer.GuaranteedOn(VolumesOf(cs), places, d) ==> n > 0)
  {
    if cs != [] {
      var last := |cs| - 1;
      GuaranteedCounts(cs[..last], places[..last], d, info);
      LastIsNew(cs, places, d, info);
      LastGuaranteed(cs, places, d);
      if places[last] == Some(d) {
        CountOneMore(OnDisk(cs[..last], places[..last], d, info), cs[last], d, info);
      }
    }
  }

  lemma LastGuaranteed(cs: seq<Claimed>, places: seq<Option<DevId>>, d: DevId)
    requires |places| == |cs| && cs != []
    ensures var last := |cs| - 1;
            Packer.GuaranteedOn(VolumesOf(cs), places, d) <==>
            Packer.GuaranteedOn(VolumesOf(cs[..last]), places[..last], d)
            || (places[last] == Some(d) && !VolumeOf(cs[last]).bestEffort)
  {
    assert VolumesOf(cs)[..|cs| - 1] == VolumesOf(cs[..|cs| - 1]);
    Packer.LastPlace(VolumesOf(cs), places, d);
  }

  lemma CountOneMore(before: map<string, IoRequest>, c: Claimed, d: DevId, info: DiskInfo)
    requires c.name !in before && VolumeRequests.UsableDisk(info)
    ensures var n := Sum(before, Count(RequestIn)).n;
            var more := Sum(before[c.name := RequestOf(c, d, info)], Count(RequestIn)).n;
            more >= n && (!VolumeOf(c).bestEffort ==> more == n + 1)
  {
    SumInsert(before, Count(RequestIn), c.name, RequestOf(c, d, info));
  }

  /** The request of a disk, as made from the packed volumes. */
  lemma RequestsAdded(cs: seq<Claimed>, places: seq<Option<DevId>>, annos: map<string, VolumeRequests.VolumeAnno>,
                      disks: DiskCache.Disks, requests: ByDevice, emptyDir: DevId, d: DevId)
    requires |places| == |cs| && DistinctNames(cs) && Annotates(annos, cs)
    requires VolumeRequests.UsableDisks(disks) && d in disks
    requires Packer.GuaranteedOn(VolumesOf(cs), places, d)
    requires VolumeRequests.Made(requests,
                                 VolumeRequests.Case(Packer.VolToDev(VolumesOf(cs), places), annos, disks), emptyDir)
    ensures d in requests && FromVolume(requests[d]) && requests[d].qos == GA && requests[d].dev.value.devName == d
    ensures Asked(requests[d]) == AskedOn(cs, places, d, disks[d])
  {
    var m := Packer.VolToDev(VolumesOf(cs), places);
    var asked := OnDisk(cs, places, d, disks[d]);
    AskedOfIs(cs, places, annos, disks, d);
    SumOnDisk(cs, places, d, disks[d]);
    GuaranteedCounts(cs, places, d, disks[d]);
    Counts(cs, places, d, disks[d]);
    MappedSomewhere(cs, places, d);
    assert VolumeRequests.Accounts(requests, d, asked);
    assert asked != map[];
    assert Carries(requests[d], d, RequestIn, Sum(asked, Count(RequestIn)));
    assert Carries(requests[d], d, RequestOut, Sum(asked, Count(RequestOut)));
  }

  lemma MappedSomewhere(cs: seq<Claimed>, places: seq<Option<DevId>>, d: DevId)
    requires |places| == |cs| && DistinctNames(cs) && Packer.GuaranteedOn(VolumesOf(cs), places, d)
    ensures Packer.VolToDev(VolumesOf(cs), places) != map[]
  {
    var i :| 0 <= i < |places| && places[i] == Some(d);
    MappedAt(cs, places, d, cs[i].name);
    assert NamedOn(cs, places, d, cs[i].name, i);
  }

  // ---------------------------------------------------------------- admission after packing

  /** The bins keep the pressure of their disks, and guaranteed volumes go only where there is none. */
  lemma {:induction false} NoPressure(order: seq<DevId>, infos: DiskCache.Disks, bins: Packer.Bins,
                                      vs: seq<Packer.Volume>, d: DevId)
    requires Packer.Ready(order, infos, bins) && d in infos && d in bins
    ensures var p := Packer.PackAll(order, infos, bins, vs);
            && p.bins[d].ga.pressured == bins[d].ga.pressured
            && (Packer.GuaranteedOn(vs, p.places, d) ==> !bins[d].ga.pressured)
  {
    var p := Packer.PackAll(order, infos, bins, vs);
    if vs != [] {
      var last := |vs| - 1;
      var q := Packer.PackAll(order, infos, bins, vs[..last]);
      NoPressure(order, infos, bins, vs[..last], d);
      assert p.places[..last] == q.places;
      Packer.FirstFitFits(order, infos, q.bins, vs[last]);
      Packer.LastPlace(vs, p.places, d);
    }
  }

  /** What the bound volumes ask of a disk. */
  function BoundOn(bound: ByDevice, d: DevId): Amount {
    if d in bound then Asked(bound[d]) else Zero
  }

  lemma MergedAsks(bound: ByDevice, requests: ByDevice, d: DevId)
    requires Proper(bound) && HaveDevs(requests) && d in requests && FromVolume(requests[d]) && requests[d].qos == GA
    ensures var m := AddAll(bound, requests);
            && d in m && FromVolume(m[d]) && m[d].qos == GA
            && Asked(m[d]) == BoundOn(bound, d).Plus(Asked(requests[d]))
  {
    if d in bound {
      MergedReads(bound[d], requests[d], RequestIn);
      MergedReads(bound[d], requests[d], RequestOut);
    }
  }

  /** The disk handed to the packer has what the bound volumes leave of bandwidth and space. */
  lemma RestLeaves(info: DiskInfo, bound: ByDevice, d: DevId, space: int)
    requires Proper(bound)
    ensures var r, b := Packer.Rest(info, Packer.Lookup(bound, d), space), BoundOn(bound, d);
            && r.ga.rd == info.ga.rd - b.rd && r.ga.wr == info.ga.wr - b.wr
            && r.ga.total == info.ga.total - (b.rd + b.wr)
            && r.ga.pressured == info.ga.pressured && r.readRatio == info.readRatio && r.writeRatio == info.writeRatio
            && Packer.Free(r) == Packer.Free(info) - space
  {
  }

  /** The pod has a guaranteed request on this disk that its bandwidth covers. */
  predicate Covered(info: DiskInfo, r: IoRequest) {
    && FromVolume(r) && r.qos == GA && !info.ga.pressured
    && var a := Asked(r);
       a.rd <= info.ga.rd && a.wr <= info.ga.wr && a.rd + a.wr <= info.ga.total
  }

  /** After packing, a disk that got a guaranteed volume passes the bandwidth test of CanAdmitPod, if all
      the volumes it got are plain. */
  lemma PackedIsCovered(disks: DiskCache.Disks, infos: DiskCache.Disks, bound: ByDevice, space: int, order: seq<DevId>,
                        bins: Packer.Bins, cs: seq<Claimed>, annos: map<string, VolumeRequests.VolumeAnno>,
                        requests: ByDevice, emptyDir: DevId, d: DevId)
    requires DistinctNames(cs) && Annotates(annos, cs) && Proper(bound)
    requires VolumeRequests.UsableDisks(disks) && VolumeRequests.NonNegativeMinimums(disks) && d in disks && d in infos
    requires infos[d] == Packer.Rest(disks[d], Packer.Lookup(bound, d), space)
    requires Packer.Ready(order, infos, Packer.Start(bins, infos))
    requires var places := Packer.PackAll(order, infos, Packer.Start(bins, infos), VolumesOf(cs)).places;
             && Packer.GuaranteedOn(VolumesOf(cs), places, d) && PlainOn(cs, places, d, disks[d])
             && VolumeRequests.Made(requests,
                                    VolumeRequests.Case(Packer.VolToDev(VolumesOf(cs), places), annos, disks), emptyDir)
    ensures HaveDevs(requests) && d in AddAll(bound, requests) && Covered(disks[d], AddAll(bound, requests)[d])
  {
    var vs, start := VolumesOf(cs), Packer.Start(bins, infos);
    var p := Packer.PackAll(order, infos, start, vs);
    var made := VolumeRequests.Case(Packer.VolToDev(vs, p.places), annos, disks);
    VolumeRequests.MadeRaised(requests, made, emptyDir);
    RequestsAdded(cs, p.places, annos, disks, requests, emptyDir, d);
    MergedAsks(bound, requests, d);
    RestLeaves(disks[d], bound, d, space);
    ChargedIsTakenIff(cs, p.places, d, disks[d]);
    BandwidthLeft(order, infos, bins, cs, d);
    SameTables(cs, p.places, d, disks[d], infos[d]);
  }

  /** What was taken from a disk with a guaranteed volume it had. */
  lemma BandwidthLeft(order: seq<DevId>, infos: DiskCache.Disks, bins: Packer.Bins, cs: seq<Claimed>, d: DevId)
    requires Packer.Ready(order, infos, Packer.Start(bins, infos)) && d in infos
    requires Packer.GuaranteedOn(VolumesOf(cs),
                                 Packer.PackAll(order, infos, Packer.Start(bins, infos), VolumesOf(cs)).places, d)
    ensures var places := Packer.PackAll(order, infos, Packer.Start(bins, infos), VolumesOf(cs)).places;
            var t := TakenOn(cs, places, d, infos[d]);
            && t.rd <= infos[d].ga.rd && t.wr <= infos[d].ga.wr && t.rd + t.wr <= infos[d].ga.total
            && !infos[d].ga.pressured
  {
    var vs, start := VolumesOf(cs), Packer.Start(bins, infos);
    var p := Packer.PackAll(order, infos, start, vs);
    Packer.PackingCovered(order, infos, start, vs, d);
    NoPressure(order, infos, start, vs, d);
    PackerTakes(cs, p.places, d, infos);
  }

  lemma {:induction false} SameTables(cs: seq<Claimed>, places: seq<Option<DevId>>, d: DevId, x: DiskInfo, y: DiskInfo)
    requires |places| == |cs| && x.readRatio == y.readRatio && x.writeRatio == y.writeRatio
    ensures TakenOn(cs, places, d, x) == TakenOn(cs, places, d, y)
  {
    if cs != [] {
      SameTables(cs[..|cs| - 1], places[..|cs| - 1], d, x, y);
    }
  }

  /** Then only the space can keep the pod off the disk. */
  lemma OnlySpaceRefuses(info: DiskInfo, r: IoRequest, storage: int)
    requires Covered(info, r) && info.be.num >= 0
    ensures DiskCache.Fits(info, DeviceRequest(r, storage)) <==> storage <= info.capacity - info.requestedDiskSpace
  {
  }
}
