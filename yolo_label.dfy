/** The YOLO labeller: from a segmentation image and the matching RGB image
    to one `<class> <cx> <cy> <w> <h>` line per traffic light. Contour
    extraction, colour conversion and the median blur are OpenCV's and are
    not part of this model: a candidate arrives as its bounding box together
    with the three blurred colour counts of its crop. */
module YoloLabel {
  import opened Decimal

  /** An 8-bit channel value. */
  type Byte = x: int | 0 <= x < 256

  datatype Option<T> = None | Some(value: T)

  // LABEL_ID
  const TrafficLight: nat := 9
  const TrafficLightRed: nat := 81
  const TrafficLightYellow: nat := 82
  const TrafficLightGreen: nat := 83

  // ---------------------------------------------------------------------
  // The traffic-light mask
  // ---------------------------------------------------------------------

  datatype Rgb = Rgb(r: Byte, g: Byte, b: Byte)

  /** The segmentation palette colour of the traffic-light class. */
  const TrafficLightSegColor: Rgb := Rgb(250, 170, 30)

  function Match(a: Byte, b: Byte): Byte {
    if a == b then 1 else 0
  }

  /** One pixel of the mono mask: the three per-channel matches are summed
      as `uint8` (at most 3, so the sum never wraps) and compared with 3. */
  function MaskValue(p: Rgb): (m: Byte)
    ensures m == 255 <==> p == TrafficLightSegColor
    ensures m == 0 <==> p != TrafficLightSegColor
  {
    var c := TrafficLightSegColor;
    var sum := (Match(p.r, c.r) + Match(p.g, c.g) + Match(p.b, c.b)) % 256;
    if sum == 3 then 255 else 0
  }

  /** The mono mask of a whole segmentation image, pixel by pixel. */
  function Mask(seg: seq<Rgb>): (m: seq<Byte>)
    ensures |m| == |seg|
    ensures forall i :: 0 <= i < |seg| ==> (m[i] == 255 <==> seg[i] == TrafficLightSegColor)
    ensures forall i :: 0 <= i < |seg| ==> (m[i] == 0 <==> seg[i] != TrafficLightSegColor)
  {
    seq(|seg|, i requires 0 <= i < |seg| => MaskValue(seg[i]))
  }

  // ---------------------------------------------------------------------
  // Bounding boxes
  // ---------------------------------------------------------------------

  /** `cv2.boundingRect`: top-left corner, width and height in pixels. */
  datatype Box = Box(x: nat, y: nat, w: nat, h: nat)

  /** The area filter: boxes under 30 square pixels are skipped. */
  predicate LargeEnough(b: Box) {
    !(b.w * b.h < 30)
  }

  /** The edge filter: boxes reaching the bottom or right border are skipped. */
  predicate InsideEdges(b: Box, width: nat, height: nat) {
    !(b.y + b.h >= height || b.x + b.w >= width)
  }

  predicate KeptBox(b: Box, width: nat, height: nat) {
    LargeEnough(b) && InsideEdges(b, width, height)
  }

  /** One label: class id, then centre and size as fractions of the image. */
  datatype Label = Label(classId: nat, cx: real, cy: real, w: real, h: real)

  function Normalize(classId: nat, b: Box, width: nat, height: nat): (l: Label)
    requires width > 0 && height > 0
    ensures l.classId == classId
  {
    var W, H := width as real, height as real;
    Label(classId,
          (b.x as real + b.w as real / 2.0) / W,
          (b.y as real + b.h as real / 2.0) / H,
          b.w as real / W,
          b.h as real / H)
  }

  // ---------------------------------------------------------------------
  // Brightness floor
  // ---------------------------------------------------------------------

  datatype Hsv = Hsv(h: Byte, s: Byte, v: Byte)

  /** What `decrease_brightness` does to one V value. */
  function Dim(v: Byte, lim: Byte): Byte {
    Max(v, lim) - lim
  }

  /** `decrease_brightness(img, value)`: the V channel is split off, raised
      to at least `lim` and then lowered by `lim`, both by masked assignment;
      H and S are merged back unchanged. */
  method DecreaseBrightness(img: seq<Hsv>, value: Byte) returns (r: seq<Hsv>)
    ensures |r| == |img|
    ensures forall i :: 0 <= i < |img| ==> r[i] == Hsv(img[i].h, img[i].s, Dim(img[i].v, value))
  {
    var v := new Byte[|img|](i requires 0 <= i < |img| => img[i].v);
    var lim := value;
    // v[v < lim] = lim
    for i := 0 to v.Length
      invariant forall k :: 0 <= k < i ==> v[k] == Max(img[k].v, lim)
      invariant forall k :: i <= k < v.Length ==> v[k] == img[k].v
    {
      if v[i] < lim {
        v[i] := lim;
      }
    }
    // v[v >= lim] -= lim
    for i := 0 to v.Length
      invariant forall k :: 0 <= k < i ==> v[k] == Dim(img[k].v, lim)
      invariant forall k :: i <= k < v.Length ==> v[k] == Max(img[k].v, lim)
    {
      if v[i] >= lim {
        v[i] := v[i] - lim;
      }
    }
    r := seq(|img|, i requires 0 <= i < |img| reads v => Hsv(img[i].h, img[i].s, v[i]));
  }

  // ---------------------------------------------------------------------
  // Colour thresholds (cv2.inRange, bounds inclusive)
  // ---------------------------------------------------------------------

  function InRange(p: Hsv, lo: Hsv, hi: Hsv): Byte {
    if lo.h <= p.h <= hi.h && lo.s <= p.s <= hi.s && lo.v <= p.v <= hi.v then 255 else 0
  }

  const RedMin: Hsv := Hsv(0, 5, 150)
  const RedMax: Hsv := Hsv(10, 255, 255)
  const RedMin2: Hsv := Hsv(175, 5, 150)
  const RedMax2: Hsv := Hsv(180, 255, 255)
  const YellowMin: Hsv := Hsv(25, 5, 150)
  const YellowMax: Hsv := Hsv(35, 180, 255)
  const GreenMin: Hsv := Hsv(35, 5, 150)
  const GreenMax: Hsv := Hsv(90, 255, 255)

  /** The two red bands are added as `uint8` arrays, which wrap at 256. */
  function RedThreshold(p: Hsv): Byte {
    (InRange(p, RedMin, RedMax) + InRange(p, RedMin2, RedMax2)) % 256
  }

  function YellowThreshold(p: Hsv): Byte {
    InRange(p, YellowMin, YellowMax)
  }

  function GreenThreshold(p: Hsv): Byte {
    InRange(p, GreenMin, GreenMax)
  }

  // ---------------------------------------------------------------------
  // The colour decision
  // ---------------------------------------------------------------------

  /** Non-zero pixels of the three blurred threshold images of one crop. */
  datatype Counts = Counts(red: nat, yellow: nat, green: nat)

  const Town10: string := "Carla/Maps/Town10HD_Opt"

  /** `check_color` with the map name as a parameter. Below 21 pixels of
      every colour the box is an unlit traffic light; otherwise the largest
      count wins, ties going to red, then yellow, then green. A yellow light
      in Town10HD is labelled as a plain traffic light. */
  function CheckColor(c: Counts, worldName: string): (r: Option<nat>)
    ensures r.Some?
    ensures r.value in {TrafficLight, TrafficLightRed, TrafficLightYellow, TrafficLightGreen}
    ensures r.value == TrafficLightRed <==> c.red > 20 && c.red >= c.yellow && c.red >= c.green
    ensures r.value == TrafficLightYellow <==>
      c.yellow > 20 && c.yellow > c.red && c.yellow >= c.green && worldName != Town10
    ensures r.value == TrafficLightGreen <==> c.green > 20 && c.green > c.red && c.green > c.yellow
  {
    var light := Max(Max(c.red, c.green), c.yellow);
    if light > 20 then
      if light == c.red then Some(TrafficLightRed)
      else if light == c.yellow then
        if worldName == Town10 then Some(TrafficLight) else Some(TrafficLightYellow)
      else if light == c.green then Some(TrafficLightGreen)
      else None
    else Some(TrafficLight)
  }

  /** What `check_color` does as written: the yellow branch reads an
      attribute the object never gets, so a yellow win raises. */
  datatype Outcome = Returned(color: Option<nat>) | MissingWorldName

  function CheckColorAsWritten(c: Counts): (r: Outcome)
    ensures r == MissingWorldName <==> c.yellow > 20 && c.yellow > c.red && c.yellow >= c.green
    ensures r.Returned? ==> forall w :: r.color == CheckColor(c, w)
  {
    var light := Max(Max(c.red, c.green), c.yellow);
    if light > 20 then
      if light == c.red then Returned(Some(TrafficLightRed))
      else if light == c.yellow then MissingWorldName
      else if light == c.green then Returned(Some(TrafficLightGreen))
      else Returned(None)
    else Returned(Some(TrafficLight))
  }

  // ---------------------------------------------------------------------
  // From candidates to labels
  // ---------------------------------------------------------------------

  /** One contour: its bounding box and the colour counts of its crop. */
  datatype Candidate = Candidate(box: Box, counts: Counts)

  /** The labels one candidate contributes: none if a filter skips it or
      the colour is `None`, else its normalised box. */
  function LabelFor(c: Candidate, width: nat, height: nat, worldName: string): (ls: seq<Label>)
    ensures |ls| <= 1
  {
    if !LargeEnough(c.box) then []
    else if !InsideEdges(c.box, width, height) then []
    else match CheckColor(c.counts, worldName)
      case None => []
      case Some(id) => [Normalize(id, c.box, width, height)]
  }

  /** The labels of a contour list, in contour order. */
  function LabelsOf(cs: seq<Candidate>, width: nat, height: nat, worldName: string): (ls: seq<Label>)
    ensures |ls| <= |cs|
  {
    if cs == [] then []
    else LabelsOf(cs[..|cs| - 1], width, height, worldName) + LabelFor(cs[|cs| - 1], width, height, worldName)
  }

  /** The contour loop of `label_img`. */
  method CollectLabels(cs: seq<Candidate>, width: nat, height: nat, worldName: string)
    returns (labels: seq<Label>)
    ensures labels == LabelsOf(cs, width, height, worldName)
  {
    labels := [];
    for i := 0 to |cs|
      invariant labels == LabelsOf(cs[..i], width, height, worldName)
    {
      assert cs[..i + 1][..i] == cs[..i];
      var b := cs[i].box;
      if b.w * b.h < 30 {
        continue;
      }
      if b.y + b.h >= height || b.x + b.w >= width {
        continue;
      }
      var color := CheckColor(cs[i].counts, worldName);
      if color.Some? {
        labels := labels + [Normalize(color.value, b, width, height)];
      }
    }
    assert cs[..|cs|] == cs;
  }

  // ---------------------------------------------------------------------
  // Output files
  // ---------------------------------------------------------------------

  /** The index of the last `c` in `s`, or -1. */
  function LastIndexOf(s: string, c: char): (i: int)
    ensures -1 <= i < |s|
    ensures i >= 0 ==> s[i] == c
    ensures forall k :: i < k < |s| ==> s[k] != c
  {
    if s == [] then -1
    else if s[|s| - 1] == c then |s| - 1
    else LastIndexOf(s[..|s| - 1], c)
  }

  /** `os.path.splitext(p)[0]` on POSIX: the extension starts at the last
      dot of the last path component, unless only dots precede it there. */
  function Stem(p: string): (r: string)
    ensures |r| <= |p| && r == p[..|r|]
  {
    var sep := LastIndexOf(p, '/');
    var dot := LastIndexOf(p, '.');
    if dot > sep && exists i :: sep < i < dot && p[i] != '.' then p[..dot] else p
  }

  /** `"{} {} {} {} {}".format(...)`; `render` stands for Python's text form
      of a float. */
  function LabelLine(l: Label, render: real -> string): string {
    Digits(l.classId) + " " + render(l.cx) + " " + render(l.cy) + " " + render(l.w) + " " + render(l.h)
  }

  /** The label file: every line followed by a newline, in list order. */
  function LabelText(labels: seq<Label>, render: real -> string): string {
    if labels == [] then ""
    else LabelText(labels[..|labels| - 1], render) + LabelLine(labels[|labels| - 1], render) + "\n"
  }

  datatype FileWrite = ImageCopy(path: string) | LabelFile(path: string, text: string)

  /** The files `label_img` writes for one image: the RGB image and the
      label file, and nothing at all when there is no label. */
  function Emission(imageOutPath: string, labelOutPath: string, name: string,
                    labels: seq<Label>, render: real -> string): (ws: seq<FileWrite>)
    ensures ws == [] <==> labels == []
    ensures ws != [] ==> |ws| == 2 && ws[0].ImageCopy? && ws[1].LabelFile?
  {
    if |labels| > 0 then
      [ImageCopy(imageOutPath + "/" + name),
       LabelFile(labelOutPath + "/" + Stem(name) + ".txt", LabelText(labels, render))]
    else []
  }

  datatype ImageInfo = ImageInfo(name: string, width: nat, height: nat)

  class YoloLabeler {
    const dataPath: string
    const worldName: string
    const imageOutPath: string
    const labelOutPath: string
    var image: Option<ImageInfo>
    var disk: seq<FileWrite>

    constructor(dataPath: string, worldName: string)
      ensures this.dataPath == dataPath && this.worldName == worldName
      ensures imageOutPath == dataPath + "/../yolo_dataset/images"
      ensures labelOutPath == dataPath + "/../yolo_dataset/labels"
      ensures image == None && disk == []
    {
      this.dataPath := dataPath;
      this.worldName := worldName;
      imageOutPath := dataPath + "/../yolo_dataset/images";
      labelOutPath := dataPath + "/../yolo_dataset/labels";
      image := None;
      disk := [];
    }

    /** `label_img` for an image `name` of the given size whose contours
        are `cs`. */
    method LabelImg(name: string, width: nat, height: nat, cs: seq<Candidate>, render: real -> string)
      modifies this
      ensures image == Some(ImageInfo(name, width, height))
      ensures disk == old(disk) + Emission(imageOutPath, labelOutPath, name,
                                           LabelsOf(cs, width, height, worldName), render)
    {
      image := Some(ImageInfo(name, width, height));
      var labels := CollectLabels(cs, width, height, worldName);
      if |labels| > 0 {
        disk := disk + [ImageCopy(imageOutPath + "/" + name)];
        disk := disk + [LabelFile(labelOutPath + "/" + Stem(name) + ".txt", LabelText(labels, render))];
      }
    }
  }
}
