# CARLA capture-and-label: frame drain and YOLO label decisions

This project models two sequential cores of a CARLA data-collection tool and
proves properties of them.

**Capture side.** This is `CavCollectThread` in `gen_data/vehicle_agent.py`.
Each sensor of a vehicle has a FIFO queue. `set_sensor` registers a sensor in
three lists that grow in lock-step. The sensor's listener puts every
measurement into that sensor's own queue, tagged with its type and the vehicle
directory `<raw_data_path>/<type>_<id>/<type>_<id>`.

`save_to_disk(frame_id)` drains the queues in passes. A pass pops the front of
every queue, in list order. A popped item older than `frame_id` is dropped.
Any other item is written, and the writer depends on the sensor type:
- a segmentation PNG under `<dir>/seg/`;
- an RGB PNG;
- a numpy LiDAR array of `len(raw)/16` points;
- the measurement's own `save_to_disk`.

Every file name carries the frame number, zero-padded to ten digits. The
`while` loop tests `sensor_frame_id`, which holds the frame of the item last
popped. That is the frame from the last queue, so only the last queue decides
when the drain stops. An empty queue makes `queue.get` time out.

**Labelling side.** This is `YoloLabel` in `gen_data/yolo_label.py`. A
traffic-light mask is taken from the segmentation image by exact colour match.
Each contour's bounding box goes through two filters: a minimum area, and a
rule that the box must not reach the right or bottom edge. Each kept box is
classified from three colour-pixel counts and normalised to centre/size
fractions. The labels are emitted as one YOLO text file per image, together
with a copy of the image. Nothing is written for an image without labels.

Files:
- `decimal.dfy` (`Decimal`): `str(n)`, the ten-digit zero padding, and its
  inverse.
- `vehicle_agent.dfy` (`VehicleAgent`):
  - the observations and writes;
  - the per-type dispatch;
  - the specification functions `Pass` and `Drain`;
  - the loop methods `PassQueues` and `DrainQueues`;
  - the class `CavCollectThread`.
- `capture_properties.dfy` (`CaptureProperties`): file-name lemmas, the exact
  shape of one pass, the exact outcome of a whole drain (both when it reaches
  the target and when it times out), and worked examples.
- `yolo_label.dfy` (`YoloLabel`):
  - the mask and the box filters;
  - normalisation;
  - the in-place brightness floor;
  - the colour thresholds and the colour decision;
  - the contour loop;
  - `splitext` and the label text;
  - the class `YoloLabeler`.
- `label_properties.dfy` (`LabelProperties`): boundary, range, threshold,
  decision and output lemmas.

Three behaviours of the drain are easy to miss:
- A timeout is not all-or-nothing. Files written before the timeout, in
  earlier passes and earlier in the same pass, stay written (`PassTimeout`,
  `DrainTimeout`, `TimeoutKeepsEarlierWrites`).
- Only the last queue is compared with `frame_id`. An earlier queue can stop
  short of the target, or have several frames written in one call
  (`DrainDecidedByLastQueue`, `EarlierQueueWritesTwice`).
- With no sensor at all and `frame_id > 0`, the `while` loop never ends. This
  is modelled as the status `Hangs`.

Every sensor of a vehicle writes into the same vehicle directory, and only
the segmentation camera adds a sub-directory of its own (`seg/`). Two sensors
of the same type on one vehicle therefore write the same file for the same
frame, and the later write replaces the earlier one
(`SameTypeSensorsShareFile`).

## Model

| member | source | states |
|---|---|---|
| Decimal.DigitsValue | gen_data/vehicle_agent.py:113 | the decimal rendering of a vehicle id reads back as the id |
| Decimal.Pad10Value | gen_data/vehicle_agent.py:176 | the `%010d` / `{:0>10d}` field reads back as the frame number |
| Decimal.Pad10Injective | gen_data/vehicle_agent.py:163 | distinct frames give distinct ten-digit fields |
| Decimal.Pad10Width | gen_data/vehicle_agent.py:169 | frames below 10^10 are rendered in exactly ten characters |
| VehicleAgent.Persist | gen_data/vehicle_agent.py:157-178 | exactly one of four writers handles each item: segmentation iff the segmentation type, RGB iff the RGB type, LiDAR iff the ray-cast type, otherwise the generic save; the LiDAR point count is the byte length divided by 16, rounded down |
| VehicleAgent.Pass | gen_data/vehicle_agent.py:143-152 | one pass keeps the number of queues, and when it does not time out it has popped the front of the last queue |
| VehicleAgent.Drain | gen_data/vehicle_agent.py:141-152 | the drain keeps the number of queues and hangs exactly when there is no queue and the target is still ahead |
| VehicleAgent.PassWritesFresh | gen_data/vehicle_agent.py:149-152 | a pass writes no item older than the target, and only items taken from the queues it visited |
| VehicleAgent.DrainWritesFresh | gen_data/vehicle_agent.py:141-152 | a whole drain never writes a stale frame, and writes only items that were queued when it started |
| VehicleAgent.PersistUnderDir | gen_data/vehicle_agent.py:156-178 | every writer gets a path under the item's own directory |
| VehicleAgent.DrainWritesUnder | gen_data/vehicle_agent.py:139-178 | when every queued item carries one directory, every file the drain writes lies under it |
| VehicleAgent.PassKeepsItems | gen_data/vehicle_agent.py:143-145 | every item left in a queue after a pass was in that same queue before it |
| VehicleAgent.DrainKeepsItems | gen_data/vehicle_agent.py:142-145 | draining only removes items, and never moves one to another queue |
| VehicleAgent.PassStep | gen_data/vehicle_agent.py:145-152 | popping the front of queue `j` moves that item, if fresh, from the pending writes to the done writes |
| VehicleAgent.PassQueues | gen_data/vehicle_agent.py:143-178 | the `for` loop writes the persisted fresh items of `Pass`, leaves its queues and timeout flag, and ends with `sensor_frame_id` holding the last queue's front frame |
| VehicleAgent.DrainStep | gen_data/vehicle_agent.py:142-149 | a timed-out pass ends the drain; otherwise the drain continues from the frame popped from the last queue |
| VehicleAgent.DrainQueues | gen_data/vehicle_agent.py:139-182 | the `while` loop's writes, remaining queues and final status are those of `Drain` from `sensor_frame_id = 0` |
| VehicleAgent.CavCollectThread.constructor | gen_data/vehicle_agent.py:64-66 | the three lists start empty |
| VehicleAgent.CavCollectThread.SetSensor | gen_data/vehicle_agent.py:109-128 | one entry is appended to each list, plus a fresh empty queue and a listener tagged with the sensor type and the vehicle directory; the lists stay in lock-step |
| VehicleAgent.CavCollectThread.DataCallback | gen_data/vehicle_agent.py:130-133 | the measurement goes to the back of its own sensor's queue and of no other, tagged by that sensor's listener |
| VehicleAgent.CavCollectThread.SaveToDisk | gen_data/vehicle_agent.py:139-182 | the queues become what `Drain` leaves, the disk log grows by what it writes, and the other lists are unchanged; every new file lies under `<raw_data_path>/<type>_<id>/<type>_<id>/` |
| CaptureProperties.PersistPathFrame | gen_data/vehicle_agent.py:162-178 | a path is `<dir>/seg/<frame>.png`, `<dir>/<frame>.png` or `<dir>/<frame>`, and its frame field reads back as the frame |
| CaptureProperties.PersistPathInjective | gen_data/vehicle_agent.py:163-178 | for one directory and one sensor type, the path determines the frame: two frames never share a file |
| CaptureProperties.SameTypeSensorsShareFile | gen_data/vehicle_agent.py:112-178 | two sensors with the same listener tag, as every same-type pair on one vehicle has, write the same path exactly when their frames agree |
| CaptureProperties.SensorDirInjective | gen_data/vehicle_agent.py:112-114 | two vehicles of one type get different directories |
| CaptureProperties.FirstReachedIsFirst | gen_data/vehicle_agent.py:149-152 | every item before the first fresh one is stale |
| CaptureProperties.PassTimesOutIff | gen_data/vehicle_agent.py:143-145 | a pass times out iff one of the queues it visits is empty |
| CaptureProperties.PassPopsEachQueue | gen_data/vehicle_agent.py:143-152 | with no queue empty, a pass pops exactly the front of each queue in list order, leaves the rest in FIFO order and writes the fresh fronts |
| CaptureProperties.PassTimeout | gen_data/vehicle_agent.py:145 | a pass that meets empty queue `e` times out; the queues before `e` lose their front, the others are untouched, and the fresh fronts before `e` stay written |
| CaptureProperties.PassPopsAll | gen_data/vehicle_agent.py:143-145 | a pass over non-empty queues pops every front and writes the fresh ones |
| CaptureProperties.PassMeetsEmpty | gen_data/vehicle_agent.py:145 | a pass over queues with an empty one times out |
| CaptureProperties.DrainDecidedByLastQueue | gen_data/vehicle_agent.py:141-152 | let `n - 1` be the position of the last queue's first fresh item: the drain reaches the target iff that item exists and every queue holds at least `n` items; it then pops exactly `n` items from every queue and writes the fresh ones pass by pass; it never hangs while there is a queue |
| CaptureProperties.FirstEmptyQueue | gen_data/vehicle_agent.py:143-145 | a queue list with an empty queue has a first one, and every queue before it is non-empty |
| CaptureProperties.DrainTimeoutFirstPass | gen_data/vehicle_agent.py:141-152 | a drain whose first pass meets an empty queue `e` pops the fronts before `e`, writes the fresh ones and stops |
| CaptureProperties.TimeoutStep | gen_data/vehicle_agent.py:141-152 | a pass that pops every front, followed by a timed-out drain, is again a timed-out drain with one more full pass |
| CaptureProperties.DrainFullPass | gen_data/vehicle_agent.py:141-152 | when every queue holds an item, the drain writes the fresh fronts and continues from the last queue's front frame |
| CaptureProperties.DrainTimeout | gen_data/vehicle_agent.py:141-152 | a drain that times out has made `m` full passes, with `m` the shortest queue length, then stopped at the first queue of that length, `e`; queues before `e` lost `m + 1` items and the others `m`; it wrote the fresh items of the full passes, then the fresh fronts before `e` |
| CaptureProperties.SingleQueueExample | gen_data/vehicle_agent.py:141-154 | frames [5, 7, 9, 12] with target 9: writes 9 and leaves [12] |
| CaptureProperties.EarlierQueueWritesTwice | gen_data/vehicle_agent.py:142-149 | an earlier queue can have two fresh frames written in one call |
| CaptureProperties.TimeoutKeepsEarlierWrites | gen_data/vehicle_agent.py:145-178 | a timeout keeps the write made earlier in the same pass |
| YoloLabel.MaskValue | gen_data/yolo_label.py:43-45 | a mask pixel is 255 iff the pixel is exactly (250, 170, 30), else 0 |
| YoloLabel.Mask | gen_data/yolo_label.py:43-45 | the same, pixel by pixel over the image |
| YoloLabel.DecreaseBrightness | gen_data/yolo_label.py:94-100 | H and S are unchanged and every V becomes max(V, lim) - lim |
| YoloLabel.CheckColor | gen_data/yolo_label.py:125-140 | the result is one of 9, 81, 82, 83 and never None: red iff red > 20 and red is at least the others; yellow iff yellow > 20, beats red, is at least green, and the map is not Town10HD; green iff green > 20 and beats both |
| YoloLabel.CheckColorAsWritten | gen_data/yolo_label.py:133-136 | as written, the call raises iff yellow wins; otherwise it agrees with `CheckColor` on every map |
| YoloLabel.CollectLabels | gen_data/yolo_label.py:53-78 | the contour loop returns `LabelsOf`: the normalised labels of the boxes passing both filters, in contour order |
| YoloLabel.Stem | gen_data/yolo_label.py:86 | `splitext(name)[0]` is a prefix of the name |
| YoloLabel.Emission | gen_data/yolo_label.py:80-90 | nothing is written iff there is no label; otherwise the image copy and then the label file |
| YoloLabel.YoloLabeler.constructor | gen_data/yolo_label.py:19-23 | the output directories are `<data>/../yolo_dataset/images` and `.../labels` |
| YoloLabel.YoloLabeler.LabelImg | gen_data/yolo_label.py:34-92 | records the current image and appends exactly the emission of that image's labels |
| LabelProperties.AreaBoundary | gen_data/yolo_label.py:56-57 | area 29 is dropped, area 30 kept |
| LabelProperties.KeptBoxBounds | gen_data/yolo_label.py:56-63 | a kept box has positive size and ends at least one pixel before the right and bottom edges |
| LabelProperties.NormalizeRecoversBox | gen_data/yolo_label.py:70-74 | scaling a label back by the image size gives the box's size, and its corner as the centre minus half the size |
| LabelProperties.NormalizeInUnitRange | gen_data/yolo_label.py:61-74 | for a kept box, cx and cy lie in [0, 1), and w and h in (0, 1) |
| LabelProperties.DimFloor | gen_data/yolo_label.py:94-100 | V below the limit becomes 0, other V values drop by the limit, no V exceeds 255 - limit, and the order of V values is kept |
| LabelProperties.BrightnessGate | gen_data/yolo_label.py:104-115 | after the floor of 80, a pixel can pass the red band only if its V was at least 230; a red-hued, saturated pixel with V at least 230 does pass it |
| LabelProperties.RedThresholdIff | gen_data/yolo_label.py:106-117 | the wrapped `uint8` sum of the two red bands is 255 exactly on hue 0-10 or 175-180 (with S at least 5 and V at least 150), else 0 |
| LabelProperties.YellowGreenOverlap | gen_data/yolo_label.py:111-119 | a pixel counts as both yellow and green iff its hue is 35, S is in 5..180 and V is at least 150 |
| LabelProperties.RedExcludesOthers | gen_data/yolo_label.py:106-119 | a red pixel is neither yellow nor green |
| LabelProperties.UnlitIsPlainLight | gen_data/yolo_label.py:129-140 | with at most 20 pixels of each colour the result is 9 |
| LabelProperties.TieOrder | gen_data/yolo_label.py:129-138 | a three-way tie goes to red; a yellow-green tie goes to yellow, which is 9 on Town10HD |
| LabelProperties.YellowWinRaises | gen_data/yolo_label.py:133-136 | counts (0, 21, 0) raise as written; with the map supplied they give 82, or 9 on Town10HD |
| LabelProperties.LabelsOfAppend | gen_data/yolo_label.py:54-75 | labels keep contour order |
| LabelProperties.LabelForIff | gen_data/yolo_label.py:55-75 | a contour yields a label iff both filters keep its box; the label is its class and its normalised box, so the `is not None` guard never skips a box |
| LabelProperties.LabelsOfEmptyIff | gen_data/yolo_label.py:54-80 | an image has no label iff every box is filtered out |
| LabelProperties.LabelsOfValid | gen_data/yolo_label.py:61-75 | every label has class 9, 81, 82 or 83 and all four fields in [0, 1) |
| LabelProperties.StemOfExtension | gen_data/yolo_label.py:86 | `splitext` drops a dot-free extension from a base name that has a non-dot character |
| LabelProperties.CaptureFrameLabelName | gen_data/yolo_label.py:86 | the label file of capture image `<frame>.png` is `<frame>.txt` |
| LabelProperties.LabelTextLines | gen_data/yolo_label.py:86-90 | the label file holds exactly one newline per label |
| LabelProperties.FrameEmission | gen_data/yolo_label.py:80-90 | a captured frame produces files iff some box passes both filters; the image goes to `<images>/<frame>.png` and the labels to `<labels>/<frame>.txt` |

## Left out

- `CavControlThread`, `CavCollectThread.__init__`, `run`, `spawn_sensors` and `get_sensor_id_list` are thread and simulator plumbing: client, blueprints, `spawn_actor` and `join`.
- `listen` and `weakref` are modelled only by the listener a sensor gets: its type and directory tag.
- Concurrency is not modelled: a drain works on a snapshot of the queues, with no `put` during it.
- The one-second blocking wait and `time.sleep(0.05)` are left out. An empty queue becomes an immediate timeout.
- `Path(...).as_posix()` normalisation (repeated or trailing slashes, `.` components) is not modelled. Paths are joined with `/` as given.
- Image conversion, numpy buffers, `cv.imwrite`, `numpy.save`, `sensor_data.save_to_disk`, `os.makedirs` and `print` are left out. Each write is recorded as its path and writer kind. `numpy.save` appends `.npy` itself, and that suffix is not recorded.
- OpenCV internals are left out: `imread`, `np.load`, `cvtColor` (both conversions), `findContours`, `boundingRect`, `medianBlur` and `countNonZero`. A contour arrives as its box and the three blurred colour counts of its crop. The thresholds are modelled per pixel only.
- Python's text form of a float is a parameter (`render`) of the label line.
- `process()` (globbing and `zip` pairing) is left out. It is file-system I/O.
- The `None` check at `gen_data/yolo_label.py:38` tests `image_seg` twice, after it has already been used. It is a quirk without effect here and is not modelled.
- `NormalizeRecoversBox`: label fields are computed with float division in the code and with exact reals in the model. Recovering the box holds of the reals only; with floats, `1 / 49 * 49` is `0.9999999999999999`. `Normalize` and `NormalizeInUnitRange` are likewise stated over the reals. Rounding near 1.0 is not modelled.
- `YoloLabel.CollectLabels` models the corrected program: it decides colours with `CheckColor` and a supplied map name. As written, a kept box where yellow wins raises `AttributeError` at `gen_data/yolo_label.py:134`. The exception leaves the loop, and no labels come back for that image. The raise is captured only by `CheckColorAsWritten`.
- `YoloLabel.YoloLabeler.LabelImg` models the corrected program too: the labeller gets the map name at construction, which the code's `__init__` (lines 19-26) never does. As written, an image with a yellow-winning kept box writes no file, and the exception ends `process()` (lines 28-32) for the remaining images. That outcome is not modelled.
- `SensorDirInjective` is stated for two vehicles of one type only. Injectivity across types is not claimed.

## Findings

| source | as written | input that shows it | evidently intended | confidence | as-written member | corrected member |
|---|---|---|---|---|---|---|
| gen_data/yolo_label.py:133-136 | the yellow branch reads `self.world_name`, which `__init__` (lines 19-26) never assigns, so a yellow win raises `AttributeError` | blurred counts red 0, yellow 21, green 0 (`YellowWinRaises`) | the map name is known to the labeller: Town10HD gives 9, any other map 82 | high, not executed | YoloLabel.CheckColorAsWritten | YoloLabel.CheckColor |
