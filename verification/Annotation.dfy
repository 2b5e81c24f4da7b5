/** A pod's requests as an annotation and back (pkg/scheduler/util/common.go: PodRequest2String;
    pkg/aggregator/server.go: formatPodRequest).

    The JSON text in between is taken as the structured map it stands for. */
module Annotation {
  import opened IoTypes
  import opened Sorting

  datatype Allocated = Allocated(qos: QoS, request: Quantity, limit: Quantity, rawRequest: Quantity, rawLimit: Quantity)

  type Key = (IoType, DevId)

  type AllocatedIO = map<Key, Allocated>

  /** Bandwidths only. */
  function Bps(q: Quantity): Quantity {
    Quantity(q.inbps, q.outbps, 0.0, 0.0)
  }

  function KeyOf(r: IoRequest): Key
    requires r.dev.Some?
  {
    (r.ioType, r.dev.value.devName)
  }

  function AllocatedOf(r: IoRequest): Allocated
    requires r.dev.Some?
  {
    var d := r.dev.value;
    Allocated(r.qos, Bps(OrZero(d.request)), Bps(OrZero(d.limit)), OrZero(d.rawRequest), OrZero(d.rawLimit))
  }

  function Formatted(k: Key, a: Allocated): IoRequest {
    IoRequest(k.0, a.qos, Some(DevRequirement(k.1, Some(Bps(a.request)), Some(Bps(a.limit)),
                                              Some(a.rawRequest), Some(a.rawLimit))))
  }

  /** The map that the requests are written to; a later request for the same key replaces an earlier one. */
  function Encoded(rs: seq<IoRequest>): AllocatedIO {
    if rs == [] then map[]
    else
      var last := |rs| - 1;
      if rs[last].dev.Some? then Encoded(rs[..last])[KeyOf(rs[last]) := AllocatedOf(rs[last])] else Encoded(rs[..last])
  }

  method PodRequest2String(rs: seq<IoRequest>) returns (r: Result<AllocatedIO>)
    ensures r == if rs == [] then Err("the device requirement is empty") else Ok(Encoded(rs))
  {
    if |rs| == 0 {
      return Err("the device requirement is empty");
    }
    var podReq: AllocatedIO := map[];
    for i := 0 to |rs|
      invariant podReq == Encoded(rs[..i])
    {
      assert rs[..i + 1][..i] == rs[..i];
      if rs[i].dev.None? {
        continue;
      }
      var d := rs[i].dev.value;
      var io := Allocated(rs[i].qos, NoQuantity, NoQuantity, NoQuantity, NoQuantity);
      if d.request.Some? {
        io := io.(request := Bps(d.request.value));
      }
      if d.limit.Some? {
        io := io.(limit := Bps(d.limit.value));
      }
      if d.rawRequest.Some? {
        io := io.(rawRequest := d.rawRequest.value);
      }
      if d.rawLimit.Some? {
        io := io.(rawLimit := d.rawLimit.value);
      }
      podReq := podReq[(rs[i].ioType, d.devName) := io];
    }
    assert rs[..|rs|] == rs;
    r := Ok(podReq);
  }

  /** The requests of a map, each once, in some order. */
  ghost predicate Lists(rs: seq<IoRequest>, m: AllocatedIO) {
    && NoRepeats(rs)
    && forall r :: r in rs <==> r.dev.Some? && KeyOf(r) in m && r == Formatted(KeyOf(r), m[KeyOf(r)])
  }

  method FormatPodRequest(m: AllocatedIO) returns (rs: seq<IoRequest>)
    ensures Lists(rs, m)
  {
    rs := [];
    var todo := m.Keys;
    while todo != {}
      invariant todo <= m.Keys && Lists(rs, m - todo)
    {
      var k :| k in todo;
      ghost var was := m - todo;
      var r := Formatted(k, m[k]);
      assert KeyOf(r) == k;
      assert r !in rs;
      todo := todo - {k};
      assert m - todo == was[k := m[k]];
      rs := rs + [r];
    }
    assert m - todo == m;
  }

  // ---------------------------------------------------------------- there and back

  /** The bandwidths of a quantity, without its operation counts; zero if it is missing. */
  predicate BandwidthsOf(q: Option<Quantity>, was: Option<Quantity>) {
    q == Some(Quantity(if was.Some? then was.value.inbps else 0.0,
                       if was.Some? then was.value.outbps else 0.0, 0.0, 0.0))
  }

  /** A whole quantity; zero if it is missing. */
  predicate WholeOf(q: Option<Quantity>, was: Option<Quantity>) {
    q.Some? && if was.Some? then q.value == was.value else q.value == Quantity(0.0, 0.0, 0.0, 0.0)
  }

  /** What a request reads as after the trip. */
  predicate ReadsAs(back: IoRequest, r: IoRequest) {
    && back.ioType == r.ioType && back.qos == r.qos && back.dev.Some? && r.dev.Some?
    && back.dev.value.devName == r.dev.value.devName
    && BandwidthsOf(back.dev.value.request, r.dev.value.request)
    && BandwidthsOf(back.dev.value.limit, r.dev.value.limit)
    && WholeOf(back.dev.value.rawRequest, r.dev.value.rawRequest)
    && WholeOf(back.dev.value.rawLimit, r.dev.value.rawLimit)
  }

  /** The one request that `r` reads as, by `ReadsAsNormal`. */
  function Normal(r: IoRequest): (back: IoRequest)
    requires r.dev.Some?
    ensures ReadsAs(back, r)
  {
    var d := r.dev.value;
    var request, limit := OrZero(d.request), OrZero(d.limit);
    IoRequest(r.ioType, r.qos,
              Some(DevRequirement(d.devName,
                                  Some(Quantity(request.inbps, request.outbps, 0.0, 0.0)),
                                  Some(Quantity(limit.inbps, limit.outbps, 0.0, 0.0)),
                                  Some(OrZero(d.rawRequest)), Some(OrZero(d.rawLimit)))))
  }

  lemma ReadsAsNormal(back: IoRequest, r: IoRequest)
    requires r.dev.Some?
    ensures ReadsAs(back, r) <==> back == Normal(r)
  {
  }

  /** Writing one request and reading it back. */
  lemma FormattedIsNormal(r: IoRequest)
    requires r.dev.Some?
    ensures Formatted(KeyOf(r), AllocatedOf(r)) == Normal(r)
  {
  }

  predicate WithDevs(rs: seq<IoRequest>) {
    forall i | 0 <= i < |rs| :: rs[i].dev.Some?
  }

  function Normals(rs: seq<IoRequest>): seq<IoRequest>
    requires WithDevs(rs)
  {
    seq(|rs|, i requires 0 <= i < |rs| => Normal(rs[i]))
  }

  predicate DistinctKeys(rs: seq<IoRequest>)
    requires WithDevs(rs)
  {
    forall i, j | 0 <= i < j < |rs| :: KeyOf(rs[i]) != KeyOf(rs[j])
  }

  /** The last request for a key is the one that stays. */
  lemma {:induction false} EncodedAt(rs: seq<IoRequest>, k: Key)
    requires WithDevs(rs)
    ensures k in Encoded(rs) <==> exists i :: LastFor(rs, k, i)
    ensures forall i | LastFor(rs, k, i) :: k in Encoded(rs) && Encoded(rs)[k] == AllocatedOf(rs[i])
  {
    if rs != [] {
      var last := |rs| - 1;
      EncodedAt(rs[..last], k);
      forall i
        ensures LastFor(rs, k, i) <==> if KeyOf(rs[last]) == k then i == last else LastFor(rs[..last], k, i)
      {
        assert forall j | 0 <= j < last :: rs[..last][j] == rs[j];
      }
      if KeyOf(rs[last]) == k {
        assert LastFor(rs, k, last);
      }
    }
  }

  /** Request `i` is the last one for this type and device. */
  predicate LastFor(rs: seq<IoRequest>, k: Key, i: int)
    requires WithDevs(rs)
  {
    0 <= i < |rs| && KeyOf(rs[i]) == k && forall j | i < j < |rs| :: KeyOf(rs[j]) != k
  }

  /** The annotation's entry says what the request says. */
  predicate EntryOf(a: Allocated, r: IoRequest)
    requires r.dev.Some?
  {
    var d := r.dev.value;
    && a.qos == r.qos
    && BandwidthsOf(Some(a.request), d.request) && BandwidthsOf(Some(a.limit), d.limit)
    && WholeOf(Some(a.rawRequest), d.rawRequest) && WholeOf(Some(a.rawLimit), d.rawLimit)
  }

  /** The annotation has an entry for a type and device exactly if a request is for them, and it says
      what the last such request says. */
  lemma EntriesAreLast(rs: seq<IoRequest>, k: Key)
    requires WithDevs(rs)
    ensures k in Encoded(rs) <==> exists i | 0 <= i < |rs| :: (rs[i].ioType, rs[i].dev.value.devName) == k
    ensures forall i | LastFor(rs, k, i) :: k in Encoded(rs) && EntryOf(Encoded(rs)[k], rs[i])
  {
    EncodedAt(rs, k);
    if exists i | 0 <= i < |rs| :: KeyOf(rs[i]) == k {
      var i := FindLast(rs, k, |rs|);
    }
  }

  lemma {:induction false} FindLast(rs: seq<IoRequest>, k: Key, n: nat) returns (i: nat)
    requires WithDevs(rs) && n <= |rs| && (exists j | 0 <= j < n :: KeyOf(rs[j]) == k)
    requires forall j | n <= j < |rs| :: KeyOf(rs[j]) != k
    ensures LastFor(rs, k, i)
  {
    if KeyOf(rs[n - 1]) == k {
      i := n - 1;
    } else {
      i := FindLast(rs, k, n - 1);
    }
  }

  /** A request shows an entry: its type, device, class, bandwidths and raw quantities. */
  predicate Shows(r: IoRequest, k: Key, a: Allocated) {
    && r.ioType == k.0 && r.qos == a.qos && r.dev.Some? && r.dev.value.devName == k.1
    && BandwidthsOf(r.dev.value.request, Some(a.request)) && BandwidthsOf(r.dev.value.limit, Some(a.limit))
    && r.dev.value.rawRequest == Some(a.rawRequest) && r.dev.value.rawLimit == Some(a.rawLimit)
  }

  /** Reading an annotation shows every entry once and nothing else. */
  lemma ListsShow(rs: seq<IoRequest>, m: AllocatedIO)
    requires Lists(rs, m)
    ensures forall k <- m :: exists i | 0 <= i < |rs| :: Shows(rs[i], k, m[k])
    ensures forall i | 0 <= i < |rs| ::
              rs[i].dev.Some? && KeyOf(rs[i]) in m && Shows(rs[i], KeyOf(rs[i]), m[KeyOf(rs[i])])
    ensures |rs| == |m|
  {
    forall k | k in m
      ensures exists i | 0 <= i < |rs| :: Shows(rs[i], k, m[k])
    {
      assert KeyOf(Formatted(k, m[k])) == k;
      assert Formatted(k, m[k]) in rs;
    }
    forall i | 0 <= i < |rs|
      ensures rs[i].dev.Some? && KeyOf(rs[i]) in m && Shows(rs[i], KeyOf(rs[i]), m[KeyOf(rs[i])])
    {
      assert rs[i] in rs;
    }
    ListsCounted(rs, m);
  }

  lemma {:induction false} ListsCounted(rs: seq<IoRequest>, m: AllocatedIO)
    requires Lists(rs, m)
    ensures |rs| == |m|
    decreases |rs|
  {
    if rs == [] {
      if m != map[] {
        var k :| k in m;
        ListedSomewhere(rs, m, k);
      }
    } else {
      var last := |rs| - 1;
      assert rs[last] in rs;
      var k := KeyOf(rs[last]);
      ListsLess(rs, m, k);
      ListsCounted(rs[..last], m - {k});
    }
  }

  lemma ListedSomewhere(rs: seq<IoRequest>, m: AllocatedIO, k: Key)
    requires Lists(rs, m) && k in m
    ensures rs != []
  {
    assert KeyOf(Formatted(k, m[k])) == k;
    assert Formatted(k, m[k]) in rs;
  }

  lemma ListsLess(rs: seq<IoRequest>, m: AllocatedIO, k: Key)
    requires Lists(rs, m) && rs != [] && k in m && rs[|rs| - 1] == Formatted(k, m[k])
    ensures Lists(rs[..|rs| - 1], m - {k})
  {
    var last := |rs| - 1;
    var less := rs[..last];
    assert rs == less + [rs[last]];
    forall r
      ensures r in less <==> r in rs && r != rs[last]
    {
      if r in less {
        var i :| 0 <= i < last && less[i] == r;
        assert rs[i] != rs[last];
      }
    }
    assert KeyOf(rs[last]) == k;
  }

  lemma EncodedDistinct(rs: seq<IoRequest>, i: nat)
    requires WithDevs(rs) && DistinctKeys(rs) && i < |rs|
    ensures KeyOf(rs[i]) in Encoded(rs) && Encoded(rs)[KeyOf(rs[i])] == AllocatedOf(rs[i])
  {
    EncodedAt(rs, KeyOf(rs[i]));
  }

  lemma NormalsDistinct(rs: seq<IoRequest>)
    requires WithDevs(rs) && DistinctKeys(rs)
    ensures Lists(Normals(rs), Encoded(rs))
  {
    var ns := Normals(rs);
    forall i, j | 0 <= i < j < |ns|
      ensures ns[i] != ns[j]
    {
      assert KeyOf(ns[i]) == KeyOf(rs[i]) && KeyOf(ns[j]) == KeyOf(rs[j]);
    }
    forall i | 0 <= i < |rs|
      ensures ns[i] == Formatted(KeyOf(rs[i]), AllocatedOf(rs[i]))
    {
      FormattedIsNormal(rs[i]);
    }
    forall r
      ensures r in ns <==> r.dev.Some? && KeyOf(r) in Encoded(rs) && r == Formatted(KeyOf(r), Encoded(rs)[KeyOf(r)])
    {
      if r in ns {
        var i :| 0 <= i < |ns| && ns[i] == r;
        assert KeyOf(r) == KeyOf(rs[i]);
        EncodedDistinct(rs, i);
      } else if r.dev.Some? && KeyOf(r) in Encoded(rs) {
        EncodedAt(rs, KeyOf(r));
        var i :| 0 <= i < |rs| && KeyOf(rs[i]) == KeyOf(r) && Encoded(rs)[KeyOf(r)] == AllocatedOf(rs[i]);
        assert ns[i] in ns;
      }
    }
  }

  /** Writing requests to the annotation and reading them back gives the same requests, up to order,
      exactly if no two of them are for the same type and device.  "The same" is `ReadsAs`. */
  lemma RoundTripIff(rs: seq<IoRequest>, back: seq<IoRequest>)
    requires WithDevs(rs) && Lists(back, Encoded(rs))
    ensures multiset(back) == multiset(Normals(rs)) <==> DistinctKeys(rs)
    ensures forall i | 0 <= i < |rs| :: ReadsAs(Normals(rs)[i], rs[i])
  {
    var ns := Normals(rs);
    if DistinctKeys(rs) {
      NormalsDistinct(rs);
      SameMembers(back, ns);
    } else {
      var i, j :| 0 <= i < j < |rs| && KeyOf(rs[i]) == KeyOf(rs[j]);
      assert ns[i] in multiset(ns) && ns[j] in multiset(ns);
      if ns[i] == ns[j] {
        CountTwice(ns, i, j);
        CountAtMostOne(back, ns[i]);
      } else {
        assert KeyOf(ns[i]) == KeyOf(ns[j]);
        assert !(ns[i] in back && ns[j] in back);
      }
    }
  }
}
