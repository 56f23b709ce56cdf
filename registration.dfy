/** The MultiScanRegistration node: its setup, which resolves the scan
    mapper from the registration parameters and subscribes to the input
    cloud topic, and its cloud callback, which drops frames while the
    system delay counter is positive and then processes every frame. */
module Registration {
  import opened ScanSetup
  import opened WarmUp

  /** The scan mapper the node holds. Presets are opaque tags; the angle
      tables behind them are not part of this model. */
  datatype ScanMapper =
    | PresetMapper(model: LidarModel)
    | LinearMapper(vAngleMin: real, vAngleMax: real, nScanRings: int)

  /** The mapper a freshly constructed node holds: the VLP-16 model. */
  const DefaultMapper: ScanMapper := PresetMapper(VLP16)

  /** The mapper after a successful setup that made the given choice. */
  function Apply(current: ScanMapper, c: MapperChoice): ScanMapper {
    match c
    case Preset(m) => PresetMapper(m)
    case Linear(lo, hi, n) => LinearMapper(lo, hi, n)
    case KeepDefault => current
  }

  /** A PointCloud2 message: its header stamp and its serialised points.
      `data` is the payload of the point-cloud conversion, which this model
      leaves out; only the stamp reaches processing here. */
  datatype CloudMessage = CloudMessage(stamp: Time, data: seq<bv8>)

  class MultiScanRegistration {
    var scanMapper: ScanMapper
    /** The lidar model parameter as last fetched. */
    var lidarModel: string
    /** Whether the input cloud topic has been subscribed to. */
    var subscribed: bool
    /** Number of frames still to drop. */
    var systemDelay: nat
    /** Stamps of the frames handed to processing, in order. */
    var processed: seq<Time>

    /** The counter the node started with. */
    ghost const initialDelay: nat
    /** Stamps of every frame the callback received, in order. */
    ghost var received: seq<Time>

    /** The counter and the processed frames are those of the warm-up gate
        replayed over every frame received so far. */
    ghost predicate Valid()
      reads this
    {
      Replay(initialDelay, received) == GateState(systemDelay, processed)
    }

    constructor (delay: nat)
      ensures Valid()
      ensures scanMapper == DefaultMapper && !subscribed
      ensures systemDelay == initialDelay == delay
      ensures processed == [] && received == []
    {
      scanMapper := DefaultMapper;
      lidarModel := "";
      subscribed := false;
      systemDelay := delay;
      processed := [];
      initialDelay := delay;
      received := [];
    }

    /** Setup of the node. `baseOk` is what the base class setup returned. */
    method Setup(baseOk: bool, p: Params) returns (ok: bool)
      requires Valid()
      modifies this`scanMapper, this`lidarModel, this`subscribed
      ensures Valid()
      ensures ok == Resolve(baseOk, p).Ok?
      ensures ok ==> subscribed && scanMapper == Apply(old(scanMapper), Resolve(baseOk, p).choice)
      ensures !ok ==> subscribed == old(subscribed) && scanMapper == old(scanMapper)
      ensures lidarModel == if baseOk && p.lidarModel.Some? then p.lidarModel.value else old(lidarModel)
    {
      if !baseOk {
        return false;
      }
      if p.lidarModel.Some? {
        lidarModel := p.lidarModel.value;
        if lidarModel == "VLP-16" {
          scanMapper := PresetMapper(VLP16);
        } else if lidarModel == "HDL-32" {
          scanMapper := PresetMapper(HDL32);
        } else if lidarModel == "HDL-64E" {
          scanMapper := PresetMapper(HDL64E);
        } else {
          return false;
        }
      } else if HasTriple(p) {
        var vAngleMin, vAngleMax, nScanRings :=
          p.minVerticalAngle.value, p.maxVerticalAngle.value, p.nScanRings.value;
        if vAngleMin >= vAngleMax {
          return false;
        } else if nScanRings < 2 {
          return false;
        }
        scanMapper := LinearMapper(vAngleMin, vAngleMax, nScanRings);
      } else {
        // parameters incomplete: the current mapper is kept
      }
      subscribed := true;
      return true;
    }

    /** The input cloud callback. It is only called once setup has
        subscribed to the input cloud topic. */
    method HandleCloudMessage(msg: CloudMessage) returns (outcome: Outcome)
      requires Valid() && subscribed
      modifies this`systemDelay, this`processed, this`received
      ensures Valid()
      ensures received == old(received) + [msg.stamp]
      ensures old(systemDelay) > 0 ==>
        outcome == Skipped && systemDelay == old(systemDelay) - 1 && processed == old(processed)
      ensures old(systemDelay) == 0 ==>
        outcome == Dispatched(msg.stamp) && systemDelay == 0 && processed == old(processed) + [msg.stamp]
      ensures outcome == Skipped <==> |received| <= initialDelay
      ensures processed == received[Min(initialDelay, |received|)..]
    {
      ghost var before := received;
      received := received + [msg.stamp];
      assert received[..|received| - 1] == before;
      if systemDelay > 0 {
        systemDelay := systemDelay - 1;
        outcome := Skipped;
      } else {
        processed := processed + [msg.stamp];
        outcome := Dispatched(msg.stamp);
      }
      ReplayClosedForm(initialDelay, before);
      ReplayClosedForm(initialDelay, received);
    }
  }
}
