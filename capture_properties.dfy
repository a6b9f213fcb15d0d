/** What the capture side promises: where files go, and exactly what a drain
    pops, drops, writes and leaves behind. */
module CaptureProperties {
  import opened Decimal
  import opened VehicleAgent

  // ---------------------------------------------------------------------
  // File names
  // ---------------------------------------------------------------------

  /** The frame field of a file name sits right after `<dir>/` (or after
      `<dir>/seg/` for segmentation images) and reads back as the frame;
      images end in `.png`, the other two writers get the bare stem. */
  lemma PersistPathFrame(o: Obs)
    ensures var w := Persist(o);
      var prefix := o.dir + (if o.typeId == SegmentationType then "/seg/" else "/");
      var suffix := if o.typeId in {SegmentationType, RgbType} then ".png" else "";
      && w.path == prefix + Pad10(o.data.frame) + suffix
      && Value(w.path[|prefix|..|prefix| + |Pad10(o.data.frame)|]) == o.data.frame
      && (o.data.frame < Pow10(10) ==> |w.path| == |prefix| + 10 + |suffix|)
  {
    var prefix := o.dir + (if o.typeId == SegmentationType then "/seg/" else "/");
    var suffix := if o.typeId in {SegmentationType, RgbType} then ".png" else "";
    var path := Persist(o).path;
    var pad := Pad10(o.data.frame);
    assert path == prefix + pad + suffix;
    assert path[|prefix|..|prefix| + |pad|] == pad;
    Pad10Value(o.data.frame);
    if o.data.frame < Pow10(10) {
      Pad10Width(o.data.frame);
    }
  }

  /** For one directory and one sensor type, the path determines the frame:
      two frames never share a file. */
  lemma PersistPathInjective(o1: Obs, o2: Obs)
    requires o1.dir == o2.dir && o1.typeId == o2.typeId
    requires Persist(o1).path == Persist(o2).path
    ensures o1.data.frame == o2.data.frame
  {
    var prefix := o1.dir + (if o1.typeId == SegmentationType then "/seg/" else "/");
    var suffix := if o1.typeId in {SegmentationType, RgbType} then ".png" else "";
    var p1, p2 := Pad10(o1.data.frame), Pad10(o2.data.frame);
    PersistPathFrame(o1);
    PersistPathFrame(o2);
    assert |p1| == |p2|;
    assert p1 == (prefix + p1 + suffix)[|prefix|..|prefix| + |p1|];
    assert p2 == (prefix + p2 + suffix)[|prefix|..|prefix| + |p2|];
    Pad10Injective(o1.data.frame, o2.data.frame);
  }

  /** Every sensor of one vehicle writes to the vehicle's directory, so two
      sensors of the same type get the same listener tag. Their files then
      collide exactly when the frames agree: the later write replaces the
      earlier one. */
  lemma SameTypeSensorsShareFile(l: Listener, a: SensorData, b: SensorData)
    ensures Persist(Obs(a, l.typeId, l.dir)).path == Persist(Obs(b, l.typeId, l.dir)).path
      <==> a.frame == b.frame
  {
    if Persist(Obs(a, l.typeId, l.dir)).path == Persist(Obs(b, l.typeId, l.dir)).path {
      PersistPathInjective(Obs(a, l.typeId, l.dir), Obs(b, l.typeId, l.dir));
    }
  }

  /** Two vehicles of one type never share a directory:
      `<type>_<id>/<type>_<id>` determines the id. */
  lemma SensorDirInjective(root: string, parentType: string, id1: nat, id2: nat)
    requires SensorDir(root, parentType, id1) == SensorDir(root, parentType, id2)
    ensures id1 == id2
  {
    var d1, d2 := Digits(id1), Digits(id2);
    var tag1, tag2 := parentType + "_" + d1, parentType + "_" + d2;
    var s := root + "/" + tag1 + "/" + tag1;
    assert s == root + "/" + tag2 + "/" + tag2;
    assert |tag1| == |tag2|;
    assert d1 == s[|root| + 1 + |parentType| + 1..|root| + 1 + |tag1|];
    assert d2 == s[|root| + 1 + |parentType| + 1..|root| + 1 + |tag2|];
    DigitsInjective(id1, id2);
  }

  // ---------------------------------------------------------------------
  // One pass over the queues
  // ---------------------------------------------------------------------

  /** The popped items a drain writes: those at or after the target frame,
      in the order they were popped. */
  function Kept(items: seq<Obs>, target: nat): (r: seq<Obs>)
    ensures |r| <= |items|
  {
    if items == [] then []
    else (if target <= items[0].data.frame then [items[0]] else []) + Kept(items[1..], target)
  }

  predicate AtLeast(qs: seq<seq<Obs>>, n: nat) {
    forall j :: 0 <= j < |qs| ==> n <= |qs[j]|
  }

  /** The front item of every queue, in list order. */
  function Heads(qs: seq<seq<Obs>>): (hs: seq<Obs>)
    requires AtLeast(qs, 1)
    ensures |hs| == |qs|
  {
    seq(|qs|, j requires 0 <= j < |qs| => qs[j][0])
  }

  /** Every queue without its first `n` items. */
  function Drop(qs: seq<seq<Obs>>, n: nat): (ds: seq<seq<Obs>>)
    requires AtLeast(qs, n)
    ensures |ds| == |qs|
  {
    seq(|qs|, j requires 0 <= j < |qs| => qs[j][n..])
  }

  /** The items `n` passes pop, in popping order: pass by pass, and within
      a pass queue by queue. */
  function Rounds(qs: seq<seq<Obs>>, n: nat): seq<Obs>
    requires AtLeast(qs, n)
    decreases n
  {
    if n == 0 then [] else Heads(qs) + Rounds(Drop(qs, 1), n - 1)
  }

  /** The index of the first item at or after the target, or the length of
      the queue if there is none. */
  function FirstReached(s: seq<Obs>, target: nat): (i: nat)
    ensures i <= |s|
    ensures i < |s| ==> target <= s[i].data.frame
  {
    if s == [] || target <= s[0].data.frame then 0 else 1 + FirstReached(s[1..], target)
  }

  /** `FirstReached` is the FIRST such index: every item before it is stale. */
  lemma {:induction false} FirstReachedIsFirst(s: seq<Obs>, target: nat, k: nat)
    requires k < FirstReached(s, target)
    ensures s[k].data.frame < target
  {
    if k > 0 {
      FirstReachedIsFirst(s[1..], target, k - 1);
    }
  }

  lemma {:induction false} KeptAppend(a: seq<Obs>, b: seq<Obs>, target: nat)
    ensures Kept(a + b, target) == Kept(a, target) + Kept(b, target)
  {
    if a == [] {
      assert a + b == b;
    } else {
      var x := if target <= a[0].data.frame then [a[0]] else [];
      assert (a + b)[0] == a[0];
      assert (a + b)[1..] == a[1..] + b;
      assert Kept(a + b, target) == x + Kept(a[1..] + b, target);
      KeptAppend(a[1..], b, target);
      assert Kept(a, target) == x + Kept(a[1..], target);
    }
  }

  /** A pass from queue `j` on times out exactly when one of those queues
      is empty. */
  lemma {:induction false} PassTimesOutIff(qs: seq<seq<Obs>>, j: nat, target: nat)
    requires j <= |qs|
    ensures Pass(qs, j, target).timedOut <==> exists k :: j <= k < |qs| && qs[k] == []
    decreases |qs| - j
  {
    if j < |qs| && qs[j] != [] {
      var qs' := qs[j := qs[j][1..]];
      PassTimesOutIff(qs', j + 1, target);
      if exists k :: j + 1 <= k < |qs'| && qs'[k] == [] {
        var k :| j + 1 <= k < |qs'| && qs'[k] == [];
        assert qs[k] == [];
      }
      if exists k :: j <= k < |qs| && qs[k] == [] {
        var k :| j <= k < |qs| && qs[k] == [];
        assert qs'[k] == [];
      }
    }
  }

  /** When none of the queues from `j` on is empty, the pass pops the front
      of each of them, leaves the earlier ones alone, and writes the popped
      items that are not stale, in queue order. */
  lemma {:induction false} PassPopsEachQueue(qs: seq<seq<Obs>>, j: nat, target: nat)
    requires j <= |qs| && AtLeast(qs[j..], 1)
    ensures var p := Pass(qs, j, target);
      && !p.timedOut
      && (forall k :: 0 <= k < |qs| ==> p.rest[k] == if k < j then qs[k] else qs[k][1..])
      && p.written == Kept(Heads(qs[j..]), target)
    decreases |qs| - j
  {
    if j == |qs| {
      assert qs[j..] == [];
    } else {
      assert qs[j..][0] == qs[j];
      var qs' := qs[j := qs[j][1..]];
      assert qs'[j + 1..] == qs[j + 1..];
      assert qs[j + 1..] == qs[j..][1..];
      PassPopsEachQueue(qs', j + 1, target);
      var hs := Heads(qs[j..]);
      assert hs[0] == qs[j][0];
      assert hs[1..] == Heads(qs[j + 1..]);
    }
  }

  /** A pass that meets an empty queue `e` raises, but what it popped and
      wrote before `e` stays popped and written; `e` and the queues after it
      are untouched. */
  lemma {:induction false} PassTimeout(qs: seq<seq<Obs>>, j: nat, e: nat, target: nat)
    requires j <= e < |qs| && qs[e] == [] && AtLeast(qs[j..e], 1)
    ensures var p := Pass(qs, j, target);
      && p.timedOut
      && (forall k :: 0 <= k < |qs| ==> p.rest[k] == if j <= k < e then qs[k][1..] else qs[k])
      && p.written == Kept(Heads(qs[j..e]), target)
    decreases e - j
  {
    if j == e {
      assert qs[j..e] == [];
    } else {
      assert qs[j..e][0] == qs[j];
      var qs' := qs[j := qs[j][1..]];
      assert qs'[j + 1..e] == qs[j + 1..e] == qs[j..e][1..];
      PassTimeout(qs', j + 1, e, target);
      var hs := Heads(qs[j..e]);
      assert hs[0] == qs[j][0];
      assert hs[1..] == Heads(qs[j + 1..e]);
    }
  }

  /** A queue list with the front of every queue popped is `Drop(qs, 1)`. */
  lemma PoppedIsDrop(qs: seq<seq<Obs>>, rest: seq<seq<Obs>>)
    requires AtLeast(qs, 1) && |rest| == |qs|
    requires forall k :: 0 <= k < |qs| ==> rest[k] == qs[k][1..]
    ensures rest == Drop(qs, 1)
  {
  }

  lemma AtLeastSucc(qs: seq<seq<Obs>>, n: nat)
    requires AtLeast(qs, 1)
    ensures AtLeast(qs, n + 1) <==> AtLeast(Drop(qs, 1), n)
  {
    if AtLeast(Drop(qs, 1), n) {
      forall k | 0 <= k < |qs| ensures n + 1 <= |qs[k]| {
        assert |Drop(qs, 1)[k]| == |qs[k]| - 1;
      }
    }
  }

  lemma DropDrop(qs: seq<seq<Obs>>, n: nat)
    requires AtLeast(qs, n + 1)
    ensures AtLeast(Drop(qs, 1), n) && Drop(Drop(qs, 1), n) == Drop(qs, n + 1)
  {
    AtLeastSucc(qs, n);
    forall k | 0 <= k < |qs| ensures Drop(Drop(qs, 1), n)[k] == Drop(qs, n + 1)[k] {
      assert qs[k][1..][n..] == qs[k][n + 1..];
    }
  }

  /** A pass over queues that all hold an item pops every front and writes
      the fresh ones. */
  lemma PassPopsAll(qs: seq<seq<Obs>>, target: nat)
    requires AtLeast(qs, 1)
    ensures Pass(qs, 0, target) == PassResult(Kept(Heads(qs), target), Drop(qs, 1), false)
  {
    assert qs[0..] == qs;
    PassPopsEachQueue(qs, 0, target);
    PoppedIsDrop(qs, Pass(qs, 0, target).rest);
  }

  /** A pass over queues one of which is empty times out. */
  lemma PassMeetsEmpty(qs: seq<seq<Obs>>, target: nat) returns (k: nat)
    requires !AtLeast(qs, 1)
    ensures k < |qs| && qs[k] == []
    ensures Pass(qs, 0, target).timedOut
  {
    k :| 0 <= k < |qs| && |qs[k]| < 1;
    PassTimesOutIff(qs, 0, target);
  }

  /** The drain is decided by the LAST queue alone: it reaches the target
      after `n` passes, where `n - 1` is the position of the first item of
      the last queue at or after the target, provided every queue holds `n`
      items; otherwise some `queue.get` times out. When it reaches the
      target it has popped exactly `n` items from every queue and written
      those of them that are not stale, pass by pass. */
  lemma {:induction false} DrainDecidedByLastQueue(qs: seq<seq<Obs>>, target: nat, sensorFrame: nat)
    requires sensorFrame < target && qs != []
    ensures var n := FirstReached(qs[|qs| - 1], target) + 1;
      var d := Drain(qs, target, sensorFrame);
      && d.status != Hangs
      && (d.status == Reached <==> n <= |qs[|qs| - 1]| && AtLeast(qs, n))
      && (d.status == Reached ==> d.rest == Drop(qs, n) && d.written == Kept(Rounds(qs, n), target))
    decreases |qs[|qs| - 1]|
  {
    var last := qs[|qs| - 1];
    var n := FirstReached(last, target) + 1;
    var d := Drain(qs, target, sensorFrame);
    if !AtLeast(qs, 1) {
      var k := PassMeetsEmpty(qs, target);
      assert d.status == Timeout;
      assert |qs[k]| < n;
    } else {
      PassPopsAll(qs, target);
      var rest := Drop(qs, 1);
      AtLeastSucc(qs, n - 1);
      var f := last[0].data.frame;
      var d' := Drain(rest, target, f);
      assert d == DrainResult(Kept(Heads(qs), target) + d'.written, d'.rest, d'.status);
      if target <= f {
        assert n == 1;
        assert d' == DrainResult([], rest, Reached);
        assert Rounds(qs, 1) == Heads(qs) + [] == Heads(qs);
        assert d.written == Kept(Heads(qs), target) + [] == Kept(Heads(qs), target);
      } else {
        DrainDecidedByLastQueue(rest, target, f);
        assert rest[|qs| - 1] == last[1..];
        assert n - 1 == FirstReached(last[1..], target) + 1;
        if d.status == Reached {
          DropDrop(qs, n - 1);
          assert Rounds(qs, n) == Heads(qs) + Rounds(rest, n - 1);
          KeptAppend(Heads(qs), Rounds(rest, n - 1), target);
        }
      }
    }
  }

  /** The first empty queue of a queue list that has one. */
  lemma {:induction false} FirstEmptyQueue(qs: seq<seq<Obs>>) returns (e: nat)
    requires !AtLeast(qs, 1)
    ensures e < |qs| && qs[e] == [] && AtLeast(qs[..e], 1)
    decreases |qs|
  {
    var j :| 0 <= j < |qs| && |qs[j]| < 1;
    if qs[0] == [] {
      e := 0;
    } else {
      assert qs[1..][j - 1] == qs[j];
      var e' := FirstEmptyQueue(qs[1..]);
      e := e' + 1;
      forall k | 0 <= k < e ensures 1 <= |qs[..e][k]| {
        if k > 0 {
          assert qs[..e][k] == qs[1..][..e'][k - 1];
        }
      }
    }
  }

  /** What a drain that timed out did to `qs`. It made `m` full passes, where
      `m` is the length of the shortest queue. Its last pass stopped at
      queue `e`, the first queue of that length. Every queue before `e` lost
      `m + 1` items and every other queue `m` items. It wrote the fresh
      items of the `m` full passes, then the fresh fronts popped before `e`
      in the last pass. */
  predicate TimedOutShape(qs: seq<seq<Obs>>, target: nat, m: nat, e: nat, written: seq<Obs>, rest: seq<seq<Obs>>) {
    && AtLeast(qs, m) && e < |qs| && |qs[e]| == m
    && (forall k :: 0 <= k < e ==> m < |qs[k]|)
    && AtLeast(Drop(qs, m)[..e], 1)
    && written == Kept(Rounds(qs, m), target) + Kept(Heads(Drop(qs, m)[..e]), target)
    && |rest| == |qs|
    && (forall k :: 0 <= k < |qs| ==> rest[k] == if k < e then qs[k][m + 1..] else qs[k][m..])
  }

  /** A drain whose first pass meets an empty queue `e` stops there. */
  lemma DrainTimeoutFirstPass(qs: seq<seq<Obs>>, target: nat, sensorFrame: nat) returns (e: nat)
    requires sensorFrame < target && !AtLeast(qs, 1)
    ensures var d := Drain(qs, target, sensorFrame);
      TimedOutShape(qs, target, 0, e, d.written, d.rest)
  {
    e := FirstEmptyQueue(qs);
    assert Drop(qs, 0) == qs;
    assert qs[0..e] == qs[..e];
    PassTimeout(qs, 0, e, target);
    var d := Drain(qs, target, sensorFrame);
    assert d.written == [] + Kept(Heads(qs[..e]), target);
    forall k | 0 <= k < |qs| ensures qs[k][0..] == qs[k] {
    }
  }

  /** Queue lengths one pass later: a list whose shortest queue has length
      `m`, first reached at `e`, had `m + 1` and `e` before the pass. */
  lemma TimeoutShiftLengths(qs: seq<seq<Obs>>, m: nat, e: nat)
    requires AtLeast(qs, 1)
    requires AtLeast(Drop(qs, 1), m) && e < |qs| && |Drop(qs, 1)[e]| == m
    requires forall k :: 0 <= k < e ==> m < |Drop(qs, 1)[k]|
    ensures AtLeast(qs, m + 1) && |qs[e]| == m + 1
    ensures forall k :: 0 <= k < e ==> m + 1 < |qs[k]|
    ensures AtLeast(Drop(qs, m + 1)[..e], 1)
  {
    AtLeastSucc(qs, m);
    forall k | 0 <= k < e ensures m + 1 < |qs[k]| {
      assert |Drop(qs, 1)[k]| == |qs[k]| - 1;
    }
    var ds := Drop(qs, m + 1)[..e];
    forall k | 0 <= k < |ds| ensures 1 <= |ds[k]| {
      assert ds[k] == qs[k][m + 1..];
    }
  }

  /** The writes one pass later: the fresh fronts, then what the rest of
      the drain writes. */
  lemma TimeoutShiftWritten(qs: seq<seq<Obs>>, m: nat, e: nat, target: nat)
    requires AtLeast(qs, m + 1) && e <= |qs| && AtLeast(Drop(qs, m + 1)[..e], 1)
    ensures AtLeast(Drop(qs, 1), m) && Drop(Drop(qs, 1), m) == Drop(qs, m + 1)
    ensures Kept(Heads(qs), target)
              + (Kept(Rounds(Drop(qs, 1), m), target) + Kept(Heads(Drop(Drop(qs, 1), m)[..e]), target))
            == Kept(Rounds(qs, m + 1), target) + Kept(Heads(Drop(qs, m + 1)[..e]), target)
  {
    DropDrop(qs, m);
    assert Rounds(qs, m + 1) == Heads(qs) + Rounds(Drop(qs, 1), m);
    KeptAppend(Heads(qs), Rounds(Drop(qs, 1), m), target);
  }

  /** The queues one pass later: each has lost one more item. */
  lemma TimeoutShiftRest(qs: seq<seq<Obs>>, m: nat, e: nat, rest: seq<seq<Obs>>)
    requires AtLeast(qs, m + 1) && |rest| == |qs| && e <= |qs|
    requires forall k :: 0 <= k < e ==> m + 1 < |qs[k]|
    requires forall k :: 0 <= k < |qs| ==>
      rest[k] == if k < e then Drop(qs, 1)[k][m + 1..] else Drop(qs, 1)[k][m..]
    ensures forall k :: 0 <= k < |qs| ==> rest[k] == if k < e then qs[k][m + 2..] else qs[k][m + 1..]
  {
    forall k | 0 <= k < |qs| ensures rest[k] == if k < e then qs[k][m + 2..] else qs[k][m + 1..] {
      assert Drop(qs, 1)[k] == qs[k][1..];
      if k < e {
        assert qs[k][1..][m + 1..] == qs[k][m + 2..];
      } else {
        assert qs[k][1..][m..] == qs[k][m + 1..];
      }
    }
  }

  /** Putting back the pass that popped every front in front of a timed-out
      drain keeps its shape, with one more full pass. */
  lemma TimeoutStep(qs: seq<seq<Obs>>, m: nat, e: nat, target: nat, written: seq<Obs>, rest: seq<seq<Obs>>)
    requires AtLeast(qs, 1)
    requires TimedOutShape(Drop(qs, 1), target, m, e, written, rest)
    ensures TimedOutShape(qs, target, m + 1, e, Kept(Heads(qs), target) + written, rest)
  {
    TimeoutShiftLengths(qs, m, e);
    TimeoutShiftWritten(qs, m, e, target);
    TimeoutShiftRest(qs, m, e, rest);
  }

  /** A drain whose first pass finds every queue non-empty: that pass pops
      every front, and the drain goes on from the last queue's front. */
  lemma DrainFullPass(qs: seq<seq<Obs>>, target: nat, sensorFrame: nat)
    requires sensorFrame < target && AtLeast(qs, 1) && qs != []
    ensures var f := qs[|qs| - 1][0].data.frame;
      var d, d' := Drain(qs, target, sensorFrame), Drain(Drop(qs, 1), target, f);
      && d.written == Kept(Heads(qs), target) + d'.written
      && d.rest == d'.rest && d.status == d'.status
      && (d.status != Reached ==> f < target)
  {
    PassPopsAll(qs, target);
  }

  /** Every drain that times out has the shape `TimedOutShape` describes. */
  lemma {:induction false} DrainTimeout(qs: seq<seq<Obs>>, target: nat, sensorFrame: nat) returns (m: nat, e: nat)
    requires sensorFrame < target && qs != []
    requires Drain(qs, target, sensorFrame).status == Timeout
    ensures var d := Drain(qs, target, sensorFrame);
      TimedOutShape(qs, target, m, e, d.written, d.rest)
    decreases |qs[|qs| - 1]|
  {
    if !AtLeast(qs, 1) {
      m := 0;
      e := DrainTimeoutFirstPass(qs, target, sensorFrame);
    } else {
      var f := qs[|qs| - 1][0].data.frame;
      var d' := Drain(Drop(qs, 1), target, f);
      DrainFullPass(qs, target, sensorFrame);
      var m', e' := DrainTimeout(Drop(qs, 1), target, f);
      m, e := m' + 1, e';
      TimeoutStep(qs, m', e, target, d'.written, d'.rest);
    }
  }

  /** With one queue of frames [5, 7, 9, 12] and target 9, the drain drops 5
      and 7, writes 9 and leaves 12 queued. */
  lemma SingleQueueExample(dir: string, typeId: string)
    ensures
      var o5, o7 := Obs(SensorData(5, 0), typeId, dir), Obs(SensorData(7, 0), typeId, dir);
      var o9, o12 := Obs(SensorData(9, 0), typeId, dir), Obs(SensorData(12, 0), typeId, dir);
      Drain([[o5, o7, o9, o12]], 9, 0) == DrainResult([o9], [[o12]], Reached)
  {
    var o5, o7 := Obs(SensorData(5, 0), typeId, dir), Obs(SensorData(7, 0), typeId, dir);
    var o9, o12 := Obs(SensorData(9, 0), typeId, dir), Obs(SensorData(12, 0), typeId, dir);
    var q0 := [o5, o7, o9, o12];
    assert q0[1..] == [o7, o9, o12];
    assert Pass([q0], 0, 9) == PassResult([], [[o7, o9, o12]], false);
    assert [o7, o9, o12][1..] == [o9, o12];
    assert Pass([[o7, o9, o12]], 0, 9) == PassResult([], [[o9, o12]], false);
    assert [o9, o12][1..] == [o12];
    assert Pass([[o9, o12]], 0, 9) == PassResult([o9], [[o12]], false);
    assert Drain([[o9, o12]], 9, 7) == DrainResult([o9], [[o12]], Reached);
    assert Drain([[o7, o9, o12]], 9, 5) == DrainResult([o9], [[o12]], Reached);
  }

  /** Only the last queue stops the drain: an earlier queue can have several
      frames at or after the target written in one call. */
  lemma EarlierQueueWritesTwice(dir: string, typeId: string)
    ensures
      var a9, a10 := Obs(SensorData(9, 0), typeId, dir), Obs(SensorData(10, 0), typeId, dir);
      var b3, b9 := Obs(SensorData(3, 0), typeId, dir), Obs(SensorData(9, 0), typeId, dir);
      Drain([[a9, a10], [b3, b9]], 9, 0) == DrainResult([a9, a10, b9], [[], []], Reached)
  {
    var a9, a10 := Obs(SensorData(9, 0), typeId, dir), Obs(SensorData(10, 0), typeId, dir);
    var b3, b9 := Obs(SensorData(3, 0), typeId, dir), Obs(SensorData(9, 0), typeId, dir);
    var qs := [[a9, a10], [b3, b9]];
    assert [a9, a10][1..] == [a10] && [b3, b9][1..] == [b9];
    var qs1 := [[a10], [b3, b9]];
    assert qs[0 := [a10]] == qs1;
    var qs2 := [[a10], [b9]];
    assert qs1[1 := [b9]] == qs2;
    assert Pass(qs2, 2, 9) == PassResult([], qs2, false);
    assert Pass(qs1, 1, 9) == PassResult([], qs2, false);
    assert Pass(qs, 0, 9) == PassResult([a9], qs2, false);
    var qs3 := [[], [b9]];
    assert [a10][1..] == [] && [b9][1..] == [];
    assert qs2[0 := []] == qs3;
    var qs4: seq<seq<Obs>> := [[], []];
    assert qs3[1 := []] == qs4;
    assert Pass(qs4, 2, 9) == PassResult([], qs4, false);
    assert Pass(qs3, 1, 9) == PassResult([b9], qs4, false);
    assert Pass(qs2, 0, 9) == PassResult([a10, b9], qs4, false);
    assert Drain(qs2, 9, 3) == DrainResult([a10, b9], qs4, Reached);
  }

  /** A timeout does not undo the writes made earlier in the same pass. */
  lemma TimeoutKeepsEarlierWrites(dir: string, typeId: string)
    ensures
      var a9 := Obs(SensorData(9, 0), typeId, dir);
      Drain([[a9], []], 9, 0) == DrainResult([a9], [[], []], Timeout)
  {
    var a9 := Obs(SensorData(9, 0), typeId, dir);
    var qs: seq<seq<Obs>> := [[a9], []];
    var qs1: seq<seq<Obs>> := [[], []];
    assert [a9][1..] == [];
    assert qs[0 := []] == qs1;
    assert Pass(qs1, 1, 9) == PassResult([], qs1, true);
    assert Pass(qs, 0, 9) == PassResult([a9], qs1, true);
  }
}
