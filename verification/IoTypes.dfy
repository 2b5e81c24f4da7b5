/** The records that the scheduler, the aggregator and the node agent exchange. */
module IoTypes {

  type Uid = string
  type DevId = string

  datatype Option<+T> = None | Some(value: T)

  datatype Result<+T> = Ok(value: T) | Err(reason: string)

  /** Workload types: guaranteed, burstable, best effort (pkg/utils.go:81-86). */
  datatype QoS = GA | BT | BE

  datatype IoType = AllIO | DiskIO | NetworkIO | RDT | RDTQuantity

  datatype Quantity = Quantity(inbps: real, outbps: real, iniops: real, outiops: real) {
    function Plus(o: Quantity): Quantity {
      Quantity(inbps + o.inbps, outbps + o.outbps, iniops + o.iniops, outiops + o.outiops)
    }
  }

  const NoQuantity := Quantity(0.0, 0.0, 0.0, 0.0)

  /** A quantity that the wire format may leave out reads as zero. */
  function OrZero(q: Option<Quantity>): Quantity {
    match q
    case None => NoQuantity
    case Some(v) => v
  }

  datatype DevRequirement = DevRequirement(
    devName: DevId,
    request: Option<Quantity>,
    limit: Option<Quantity>,
    rawRequest: Option<Quantity>,
    rawLimit: Option<Quantity>)

  datatype IoRequest = IoRequest(ioType: IoType, qos: QoS, dev: Option<DevRequirement>)

  datatype PodRequest = PodRequest(name: string, namespace: string, requests: seq<IoRequest>)

  /** The ledger: what each reserved pod holds. */
  type Pods = map<Uid, PodRequest>

  /** One bandwidth pool of a device (pkg/utils.go:180-186). */
  datatype Pool = Pool(rd: real, wr: real, total: real, pressured: bool, num: int)

  datatype MappingRatio = MappingRatio(blockSize: int, ratio: real)

  /** What the scheduler caches about one disk (pkg/scheduler/blockio/resource.go:39-50). */
  datatype DiskInfo = DiskInfo(
    readRatio: seq<MappingRatio>,
    writeRatio: seq<MappingRatio>,
    beDefaultRead: real,
    beDefaultWrite: real,
    ga: Pool,
    be: Pool,
    capacity: int,
    requestedDiskSpace: int)

  /** A device of the node's static configuration. */
  datatype Device = Device(capacityIn: real, capacityOut: real, capacityTotal: real, defaultIn: real, defaultOut: real)

  datatype ResourceConfig = ResourceConfig(bePool: int, devices: map<DevId, Device>)

  /** Conversion of a float to an integer, toward zero. */
  function Trunc(x: real): int {
    if x >= 0.0 then x.Floor else -((-x).Floor)
  }

  /** Integer division by a positive number, toward zero. */
  function TruncDiv(a: int, b: int): int
    requires b > 0
  {
    if a >= 0 then a / b else -((-a) / b)
  }

  /** The part of a capacity, in percent, as the scheduler computes it in integers. */
  function Share(percent: int, capacity: real): int {
    TruncDiv(percent * Trunc(capacity), 100)
  }

  datatype PvcInfo = PvcInfo(devId: DevId, reqStorage: int, reuse: bool)

  /** A pod's request on one device: bandwidth, and disk space for newly placed claims. */
  datatype DeviceRequest = DeviceRequest(io: IoRequest, storage: int)

  /** A pod with one disk request, for examples. */
  function APod(): PodRequest {
    PodRequest("p", "ns", [IoRequest(DiskIO, BE, None)])
  }
}
