/** The capture side of the data generator: one FIFO queue per sensor that
    the simulator's callbacks fill, and the drain that empties the queues up
    to a target frame and writes each observation it keeps to disk. */
module VehicleAgent {
  import opened Decimal

  const SegmentationType: string := "sensor.camera.semantic_segmentation"
  const RgbType: string := "sensor.camera.rgb"
  const LidarType: string := "sensor.lidar.ray_cast"

  /** What the drain reads of a simulator measurement: its frame number and
      the length of its raw byte buffer. */
  datatype SensorData = SensorData(frame: nat, rawLength: nat)

  /** A queue item: the tuple `(sensor_data, type_id, filename)` the callback puts. */
  datatype Obs = Obs(data: SensorData, typeId: string, dir: string)

  datatype SensorActor = SensorActor(id: nat, typeId: string)

  /** What a sensor's `listen` closure captured when it was registered. */
  datatype Listener = Listener(typeId: string, dir: string)

  /** The four ways an observation reaches the disk. */
  datatype WriteKind =
    | SegmentationPng            // palette-converted image, cv.imwrite
    | RgbPng                     // raw RGBA image, cv.imwrite
    | LidarArray(points: nat)    // numpy.save of a (points x 4) float32 array
    | SensorSave                 // the measurement's own save_to_disk

  /** One persisted file: the path handed to the writer, and how it is written. */
  datatype Write = Write(path: string, kind: WriteKind)

  /** The directory every sensor of one vehicle writes to:
      `<raw_data_path>/<type>_<id>/<type>_<id>`. */
  function SensorDir(rawDataPath: string, parentType: string, parentId: nat): string {
    var tag := parentType + "_" + Digits(parentId);
    rawDataPath + "/" + tag + "/" + tag
  }

  /** The per-type dispatch of the drain: exactly one of four branches. */
  function Persist(o: Obs): (w: Write)
    ensures w.kind.SegmentationPng? <==> o.typeId == SegmentationType
    ensures w.kind.RgbPng? <==> o.typeId == RgbType
    ensures w.kind.LidarArray? <==> o.typeId == LidarType
    ensures w.kind.SensorSave? <==> o.typeId !in {SegmentationType, RgbType, LidarType}
    ensures w.kind.LidarArray? ==> w.kind.points * 16 <= o.data.rawLength < (w.kind.points + 1) * 16
  {
    var name := Pad10(o.data.frame);
    if o.typeId == SegmentationType then Write(o.dir + "/seg/" + name + ".png", SegmentationPng)
    else if o.typeId == RgbType then Write(o.dir + "/" + name + ".png", RgbPng)
    else if o.typeId == LidarType then Write(o.dir + "/" + name, LidarArray(o.data.rawLength / 16))
    else Write(o.dir + "/" + name, SensorSave)
  }

  function PersistAll(items: seq<Obs>): (ws: seq<Write>)
    ensures |ws| == |items|
  {
    seq(|items|, i requires 0 <= i < |items| => Persist(items[i]))
  }

  datatype PassResult = PassResult(written: seq<Obs>, rest: seq<seq<Obs>>, timedOut: bool)

  /** The inner `for queue in data_queue_list` loop from queue `j` on: pop the
      front of each queue in list order (in place), keep it unless it is
      stale, and stop with a timeout at the first empty queue. */
  function Pass(qs: seq<seq<Obs>>, j: nat, target: nat): (r: PassResult)
    requires j <= |qs|
    ensures |r.rest| == |qs|
    ensures !r.timedOut && j < |qs| ==> qs[|qs| - 1] != [] && r.rest[|qs| - 1] == qs[|qs| - 1][1..]
    decreases |qs| - j
  {
    if j == |qs| then PassResult([], qs, false)
    else if qs[j] == [] then PassResult([], qs, true)
    else
      var o := qs[j][0];
      var r := Pass(qs[j := qs[j][1..]], j + 1, target);
      PassResult((if target <= o.data.frame then [o] else []) + r.written, r.rest, r.timedOut)
  }

  /** How `save_to_disk` ends: the target frame was reached, a `queue.get`
      timed out, or, with no queue at all, the `while` loop never ends. */
  datatype Status = Reached | Timeout | Hangs

  datatype DrainResult = DrainResult(written: seq<Obs>, rest: seq<seq<Obs>>, status: Status)

  /** The `while sensor_frame_id < frame_id` loop, from a given value of
      `sensor_frame_id`: passes repeat until the item popped from the LAST
      queue is at or after the target. */
  function Drain(qs: seq<seq<Obs>>, target: nat, sensorFrame: nat): (d: DrainResult)
    ensures |d.rest| == |qs|
    ensures d.status == Hangs <==> qs == [] && sensorFrame < target
    decreases if qs == [] then 0 else |qs[|qs| - 1]|
  {
    if target <= sensorFrame then DrainResult([], qs, Reached)
    else if qs == [] then DrainResult([], qs, Hangs)
    else
      var p := Pass(qs, 0, target);
      if p.timedOut then DrainResult(p.written, p.rest, Timeout)
      else
        var d := Drain(p.rest, target, qs[|qs| - 1][0].data.frame);
        DrainResult(p.written + d.written, d.rest, d.status)
  }

  lemma PersistAllAppend(items: seq<Obs>, more: seq<Obs>)
    ensures PersistAll(items + more) == PersistAll(items) + PersistAll(more)
  {
  }

  /** A pass writes no frame older than the target, and only items it
      popped from the queues. */
  lemma {:induction false} PassWritesFresh(qs: seq<seq<Obs>>, j: nat, target: nat)
    requires j <= |qs|
    ensures forall o :: o in Pass(qs, j, target).written ==>
      target <= o.data.frame && exists k :: j <= k < |qs| && o in qs[k]
    decreases |qs| - j
  {
    if j < |qs| && qs[j] != [] {
      var qs' := qs[j := qs[j][1..]];
      PassWritesFresh(qs', j + 1, target);
      forall o | o in Pass(qs, j, target).written
        ensures target <= o.data.frame && exists k :: j <= k < |qs| && o in qs[k]
      {
        if o != qs[j][0] {
          var k :| j + 1 <= k < |qs'| && o in qs'[k];
          assert o in qs[k];
        }
      }
    }
  }

  /** A drain writes no frame older than the target, and only items that
      were in the queues when it started. */
  lemma {:induction false} DrainWritesFresh(qs: seq<seq<Obs>>, target: nat, sensorFrame: nat)
    ensures forall o :: o in Drain(qs, target, sensorFrame).written ==>
      target <= o.data.frame && exists k :: 0 <= k < |qs| && o in qs[k]
    decreases if qs == [] then 0 else |qs[|qs| - 1]|
  {
    if sensorFrame < target && qs != [] {
      var p := Pass(qs, 0, target);
      PassWritesFresh(qs, 0, target);
      if !p.timedOut {
        var d := Drain(p.rest, target, qs[|qs| - 1][0].data.frame);
        DrainWritesFresh(p.rest, target, qs[|qs| - 1][0].data.frame);
        PassKeepsItems(qs, 0, target);
        forall o | o in d.written
          ensures target <= o.data.frame && exists k :: 0 <= k < |qs| && o in qs[k]
        {
          var k :| 0 <= k < |p.rest| && o in p.rest[k];
          assert o in qs[k];
        }
      }
    }
  }

  /** Every file the writer gets lies under the item's own directory. */
  lemma PersistUnderDir(o: Obs)
    ensures o.dir + "/" <= Persist(o).path
  {
    var name := Pad10(o.data.frame);
    if o.typeId == SegmentationType {
      assert o.dir + "/seg/" + name + ".png" == (o.dir + "/") + ("seg/" + name + ".png");
    } else if o.typeId == RgbType {
      assert o.dir + "/" + name + ".png" == (o.dir + "/") + (name + ".png");
    }
  }

  /** When every queued item carries directory `dir`, every file a drain
      writes lies under `dir`. */
  lemma DrainWritesUnder(qs: seq<seq<Obs>>, target: nat, sensorFrame: nat, dir: string)
    requires forall k, o :: 0 <= k < |qs| && o in qs[k] ==> o.dir == dir
    ensures var ws := PersistAll(Drain(qs, target, sensorFrame).written);
      forall i :: 0 <= i < |ws| ==> dir + "/" <= ws[i].path
  {
    var d := Drain(qs, target, sensorFrame);
    DrainWritesFresh(qs, target, sensorFrame);
    forall i | 0 <= i < |d.written| ensures dir + "/" <= Persist(d.written[i]).path {
      var o := d.written[i];
      assert o in d.written;
      PersistUnderDir(o);
    }
  }

  /** A pass only ever removes items from the front of a queue. */
  lemma {:induction false} PassKeepsItems(qs: seq<seq<Obs>>, j: nat, target: nat)
    requires j <= |qs|
    ensures var p := Pass(qs, j, target);
      forall k, o :: 0 <= k < |qs| && o in p.rest[k] ==> o in qs[k]
    decreases |qs| - j
  {
    if j < |qs| && qs[j] != [] {
      var qs' := qs[j := qs[j][1..]];
      PassKeepsItems(qs', j + 1, target);
      forall k, o | 0 <= k < |qs| && o in Pass(qs, j, target).rest[k] ensures o in qs[k] {
        assert o in qs'[k];
      }
    }
  }

  /** Draining only ever removes items from the front of a queue. */
  lemma {:induction false} DrainKeepsItems(qs: seq<seq<Obs>>, target: nat, sensorFrame: nat)
    ensures var d := Drain(qs, target, sensorFrame);
      forall k, o :: 0 <= k < |qs| && o in d.rest[k] ==> o in qs[k]
    decreases if qs == [] then 0 else |qs[|qs| - 1]|
  {
    if sensorFrame < target && qs != [] {
      var p := Pass(qs, 0, target);
      PassKeepsItems(qs, 0, target);
      if !p.timedOut {
        DrainKeepsItems(p.rest, target, qs[|qs| - 1][0].data.frame);
      }
    }
  }

  /** One step of a pass: popping the front of queue `j` moves that item
      (if it is fresh) from what remains to be written to what was written. */
  lemma PassStep(queues: seq<seq<Obs>>, rest: seq<seq<Obs>>, j: nat, target: nat, written: seq<Obs>)
    requires j < |rest| == |queues| && rest[j..] == queues[j..] && rest[j] != []
    requires var p := Pass(rest, j, target);
      Pass(queues, 0, target) == PassResult(written + p.written, p.rest, p.timedOut)
    ensures var o := rest[j][0];
      var rest' := rest[j := rest[j][1..]];
      var p := Pass(rest', j + 1, target);
      var kept := if target <= o.data.frame then [o] else [];
      && queues[j] == rest[j]
      && |rest'| == |queues| && rest'[j + 1..] == queues[j + 1..]
      && Pass(queues, 0, target) == PassResult((written + kept) + p.written, p.rest, p.timedOut)
  {
    var o := rest[j][0];
    var rest' := rest[j := rest[j][1..]];
    var p := Pass(rest', j + 1, target);
    var kept := if target <= o.data.frame then [o] else [];
    assert rest[j..][0] == rest[j];
    assert Pass(rest, j, target) == PassResult(kept + p.written, p.rest, p.timedOut);
    assert written + (kept + p.written) == (written + kept) + p.written;
    assert rest'[j + 1..] == rest[j + 1..] == rest[j..][1..];
  }

  /** One pass of the inner `for queue in data_queue_list` loop: the files it
      writes, the queues after its pops, whether a `queue.get` timed out, and
      the last `sensor_frame_id` it set. */
  method PassQueues(queues: seq<seq<Obs>>, frameId: nat, sensorFrameId: nat)
    returns (writes: seq<Write>, rest: seq<seq<Obs>>, timedOut: bool, lastFrameId: nat)
    ensures var p := Pass(queues, 0, frameId);
      writes == PersistAll(p.written) && rest == p.rest && timedOut == p.timedOut
    ensures !timedOut && queues != [] ==> queues[|queues| - 1] != [] && lastFrameId == queues[|queues| - 1][0].data.frame
  {
    writes, rest, lastFrameId := [], queues, sensorFrameId;
    ghost var written: seq<Obs> := [];
    for j := 0 to |rest|
      invariant |rest| == |queues| && rest[j..] == queues[j..]
      invariant var p := Pass(rest, j, frameId);
        Pass(queues, 0, frameId) == PassResult(written + p.written, p.rest, p.timedOut)
      invariant writes == PersistAll(written)
      invariant 0 < j ==> queues[j - 1] != [] && lastFrameId == queues[j - 1][0].data.frame
    {
      if rest[j] == [] {
        // `queue.get(True, 1.0)` raises `queue.Empty`
        return writes, rest, true, lastFrameId;
      }
      PassStep(queues, rest, j, frameId, written);
      var sensorFrame := rest[j][0];
      rest := rest[j := rest[j][1..]];
      lastFrameId := sensorFrame.data.frame;
      if frameId <= lastFrameId {
        PersistAllAppend(written, [sensorFrame]);
        writes := writes + [Persist(sensorFrame)];
        written := written + [sensorFrame];
      } else {
        assert written + [] == written;
      }
    }
    return writes, rest, false, lastFrameId;
  }

  /** One pass of the drain, seen from the whole drain: a timeout ends it,
      otherwise the drain goes on from the frame popped from the last queue. */
  lemma DrainStep(queues: seq<seq<Obs>>, rest: seq<seq<Obs>>, target: nat, sensorFrame: nat, written: seq<Obs>)
    requires sensorFrame < target && rest != []
    requires var d := Drain(rest, target, sensorFrame);
      Drain(queues, target, 0) == DrainResult(written + d.written, d.rest, d.status)
    ensures var p := Pass(rest, 0, target);
      p.timedOut ==> Drain(queues, target, 0) == DrainResult(written + p.written, p.rest, Timeout)
    ensures var p := Pass(rest, 0, target);
      !p.timedOut ==> (
        && rest[|rest| - 1] != [] && |p.rest| == |rest|
        && var d := Drain(p.rest, target, rest[|rest| - 1][0].data.frame);
           Drain(queues, target, 0) == DrainResult((written + p.written) + d.written, d.rest, d.status))
  {
    var p := Pass(rest, 0, target);
    if !p.timedOut {
      var d := Drain(p.rest, target, rest[|rest| - 1][0].data.frame);
      assert written + (p.written + d.written) == (written + p.written) + d.written;
    }
  }

  /** The `while sensor_frame_id < frame_id` loop of `save_to_disk`, on a
      snapshot of the queues: returns the files it writes, what is left in
      the queues, and how it ended. */
  method DrainQueues(queues: seq<seq<Obs>>, frameId: nat) returns (writes: seq<Write>, rest: seq<seq<Obs>>, status: Status)
    ensures var d := Drain(queues, frameId, 0);
      writes == PersistAll(d.written) && rest == d.rest && status == d.status
  {
    var sensorFrameId: nat := 0;
    ghost var written: seq<Obs> := [];
    writes, rest := [], queues;
    if sensorFrameId < frameId && rest == [] {
      // the `for` loop pops nothing, so `sensor_frame_id` stays 0 forever
      return writes, rest, Hangs;
    }
    assert [] + Drain(queues, frameId, 0).written == Drain(queues, frameId, 0).written;
    while sensorFrameId < frameId
      invariant rest == [] ==> frameId <= sensorFrameId
      invariant var d := Drain(rest, frameId, sensorFrameId);
        Drain(queues, frameId, 0) == DrainResult(written + d.written, d.rest, d.status)
      invariant writes == PersistAll(written)
      decreases if rest == [] then 0 else |rest[|rest| - 1]|
    {
      DrainStep(queues, rest, frameId, sensorFrameId, written);
      ghost var pass := Pass(rest, 0, frameId);
      var passWrites, timedOut;
      passWrites, rest, timedOut, sensorFrameId := PassQueues(rest, frameId, sensorFrameId);
      PersistAllAppend(written, pass.written);
      writes := writes + passWrites;
      written := written + pass.written;
      if timedOut {
        return writes, rest, Timeout;
      }
    }
    assert written + [] == written;
    return writes, rest, Reached;
  }

  /** The sensor-collection thread of one vehicle: the three lists that grow
      in lock-step, the closures `listen` registered, and the files written. */
  class CavCollectThread {
    const rawDataPath: string
    const parentType: string
    const parentId: nat
    var sensorList: seq<SensorActor>
    var sensorIdList: seq<nat>
    var dataQueueList: seq<seq<Obs>>
    var listeners: seq<Listener>
    var disk: seq<Write>

    ghost predicate Valid()
      reads this
    {
      && |sensorIdList| == |sensorList|
      && |dataQueueList| == |sensorList|
      && |listeners| == |sensorList|
      && (forall i :: 0 <= i < |sensorList| ==>
            && sensorIdList[i] == sensorList[i].id
            && listeners[i] == Listener(sensorList[i].typeId, SensorDir(rawDataPath, parentType, parentId)))
      && (forall i, o :: 0 <= i < |dataQueueList| && o in dataQueueList[i] ==>
            o.typeId == listeners[i].typeId && o.dir == listeners[i].dir)
    }

    constructor (rawDataPath: string, parentType: string, parentId: nat)
      ensures Valid()
      ensures this.rawDataPath == rawDataPath && this.parentType == parentType && this.parentId == parentId
      ensures sensorList == [] && sensorIdList == [] && dataQueueList == [] && listeners == [] && disk == []
    {
      this.rawDataPath := rawDataPath;
      this.parentType := parentType;
      this.parentId := parentId;
      sensorList := [];
      sensorIdList := [];
      dataQueueList := [];
      listeners := [];
      disk := [];
    }

    /** Register a spawned sensor: one new entry in each list, a fresh empty
        queue, and a listener that tags its data with the sensor's type and
        the vehicle's directory. */
    method SetSensor(actor: SensorActor) returns (idx: nat)
      requires Valid()
      modifies this
      ensures Valid()
      ensures idx == |old(sensorList)|
      ensures sensorList == old(sensorList) + [actor]
      ensures sensorIdList == old(sensorIdList) + [actor.id]
      ensures dataQueueList == old(dataQueueList) + [[]]
      ensures listeners == old(listeners) + [Listener(actor.typeId, SensorDir(rawDataPath, parentType, parentId))]
      ensures disk == old(disk)
    {
      sensorList := sensorList + [actor];
      sensorIdList := sensorIdList + [actor.id];
      var filename := SensorDir(rawDataPath, parentType, parentId);
      var sensorType := actor.typeId;
      dataQueueList := dataQueueList + [[]];
      idx := |dataQueueList| - 1;
      listeners := listeners + [Listener(sensorType, filename)];
    }

    /** A measurement delivered to the listener of sensor `idx`: it is put at
        the back of that sensor's queue and of no other. */
    method DataCallback(idx: nat, data: SensorData)
      requires Valid() && idx < |dataQueueList|
      modifies this
      ensures Valid()
      ensures sensorList == old(sensorList) && sensorIdList == old(sensorIdList)
      ensures listeners == old(listeners) && disk == old(disk)
      ensures dataQueueList == old(dataQueueList)[idx := old(dataQueueList)[idx] + [Obs(data, listeners[idx].typeId, listeners[idx].dir)]]
    {
      var item := Obs(data, listeners[idx].typeId, listeners[idx].dir);
      dataQueueList := dataQueueList[idx := dataQueueList[idx] + [item]];
    }

    /** `save_to_disk(frame_id)`: drain this vehicle's queues up to `frameId`
        and append what the drain writes to the disk log. */
    method SaveToDisk(frameId: nat) returns (status: Status)
      requires Valid()
      modifies this
      ensures Valid()
      ensures var d := Drain(old(dataQueueList), frameId, 0);
        dataQueueList == d.rest && status == d.status && disk == old(disk) + PersistAll(d.written)
      ensures sensorList == old(sensorList) && sensorIdList == old(sensorIdList) && listeners == old(listeners)
      ensures forall i :: |old(disk)| <= i < |disk| ==>
        SensorDir(rawDataPath, parentType, parentId) + "/" <= disk[i].path
    {
      DrainWritesUnder(dataQueueList, frameId, 0, SensorDir(rawDataPath, parentType, parentId));
      var writes, rest;
      writes, rest, status := DrainQueues(dataQueueList, frameId);
      DrainKeepsItems(dataQueueList, frameId, 0);
      dataQueueList := rest;
      disk := disk + writes;
    }
  }
}
