/** What the labeller promises: which boxes become labels, what the label
    numbers mean, how the thresholds and the colour decision behave, and
    what the label file holds. */
module LabelProperties {
  import opened Decimal
  import opened YoloLabel

  // ---------------------------------------------------------------------
  // Boxes and normalisation
  // ---------------------------------------------------------------------

  /** Area 29 is dropped and area 30 is kept. */
  lemma AreaBoundary()
    ensures !LargeEnough(Box(0, 0, 1, 29)) && LargeEnough(Box(0, 0, 1, 30))
    ensures !LargeEnough(Box(0, 0, 0, 100))
  {
  }

  /** A box that survives both filters has a positive size and stays at
      least one pixel clear of the right and bottom borders. */
  lemma KeptBoxBounds(b: Box, width: nat, height: nat)
    requires KeptBox(b, width, height)
    ensures 1 <= b.w && 1 <= b.h
    ensures b.x + b.w <= width - 1 && b.y + b.h <= height - 1
  {
  }

  /** Scaling a label back by the image size gives the box: its size, and
      its corner as centre minus half the size. */
  lemma NormalizeRecoversBox(classId: nat, b: Box, width: nat, height: nat)
    requires width > 0 && height > 0
    ensures var l := Normalize(classId, b, width, height);
      var W, H := width as real, height as real;
      && l.w * W == b.w as real && l.h * H == b.h as real
      && l.cx * W - l.w * W / 2.0 == b.x as real
      && l.cy * H - l.h * H / 2.0 == b.y as real
  {
  }

  lemma Fraction(a: real, W: real)
    requires 0.0 <= a < W
    ensures 0.0 <= a / W < 1.0
  {
    assert a / W * W == a;
  }

  /** Every field of a kept box's label lies in [0, 1), and the size fields
      are positive. */
  lemma NormalizeInUnitRange(classId: nat, b: Box, width: nat, height: nat)
    requires KeptBox(b, width, height)
    ensures width > 0 && height > 0
    ensures var l := Normalize(classId, b, width, height);
      && 0.0 <= l.cx < 1.0 && 0.0 <= l.cy < 1.0
      && 0.0 < l.w < 1.0 && 0.0 < l.h < 1.0
  {
    KeptBoxBounds(b, width, height);
    var W, H := width as real, height as real;
    Fraction(b.x as real + b.w as real / 2.0, W);
    Fraction(b.y as real + b.h as real / 2.0, H);
    Fraction(b.w as real, W);
    Fraction(b.h as real, H);
  }

  // ---------------------------------------------------------------------
  // Brightness floor and thresholds
  // ---------------------------------------------------------------------

  /** V values under the limit go to 0, the others drop by the limit, so
      nothing stays above 255 - limit and the order of V values is kept. */
  lemma DimFloor(v: Byte, w: Byte, lim: Byte)
    ensures Dim(v, lim) <= 255 - lim
    ensures v < lim ==> Dim(v, lim) == 0
    ensures lim <= v ==> Dim(v, lim) + lim == v
    ensures v <= w ==> Dim(v, lim) <= Dim(w, lim)
  {
  }

  /** After `decrease_brightness(hsv, 80)` a pixel reaches the lower V bound
      150 shared by every colour band exactly when its V was at least 230. */
  lemma BrightnessGate(p: Hsv)
    ensures var q := Hsv(p.h, p.s, Dim(p.v, 80));
      (InRange(q, RedMin, RedMax) == 255 ==> p.v >= 230)
      && (p.v >= 230 && p.h <= 10 && 5 <= p.s ==> InRange(q, RedMin, RedMax) == 255)
  {
  }

  /** The red threshold is 255 exactly on the two red hue bands and 0
      elsewhere: the bands are disjoint, so the `uint8` sum never wraps. */
  lemma RedThresholdIff(p: Hsv)
    ensures RedThreshold(p) == 255 <==> (p.h <= 10 || 175 <= p.h <= 180) && 5 <= p.s && 150 <= p.v
    ensures RedThreshold(p) == 0 || RedThreshold(p) == 255
  {
  }

  /** Yellow and green share hue 35: such a pixel counts for both. */
  lemma YellowGreenOverlap(p: Hsv)
    ensures YellowThreshold(p) == 255 && GreenThreshold(p) == 255 <==>
      p.h == 35 && 5 <= p.s <= 180 && 150 <= p.v
  {
  }

  /** A red pixel is neither yellow nor green. */
  lemma RedExcludesOthers(p: Hsv)
    requires RedThreshold(p) == 255
    ensures YellowThreshold(p) == 0 && GreenThreshold(p) == 0
  {
    RedThresholdIff(p);
  }

  // ---------------------------------------------------------------------
  // The colour decision
  // ---------------------------------------------------------------------

  /** With at most 20 pixels of each colour the box is a plain traffic
      light, on every map. */
  lemma UnlitIsPlainLight(c: Counts, worldName: string)
    requires c.red <= 20 && c.yellow <= 20 && c.green <= 20
    ensures CheckColor(c, worldName) == Some(TrafficLight)
  {
  }

  /** A three-way tie above the threshold goes to red; a yellow-green tie
      goes to yellow, which Town10HD reports as a plain traffic light. */
  lemma TieOrder(n: nat, worldName: string)
    requires n > 20
    ensures CheckColor(Counts(n, n, n), worldName) == Some(TrafficLightRed)
    ensures CheckColor(Counts(0, n, n), worldName) ==
      if worldName == Town10 then Some(TrafficLight) else Some(TrafficLightYellow)
  {
  }

  /** As written, 21 yellow pixels and nothing else raise, where the map
      name, once supplied, gives the yellow class. */
  lemma YellowWinRaises()
    ensures CheckColorAsWritten(Counts(0, 21, 0)) == MissingWorldName
    ensures CheckColor(Counts(0, 21, 0), "Carla/Maps/Town03") == Some(TrafficLightYellow)
    ensures CheckColor(Counts(0, 21, 0), Town10) == Some(TrafficLight)
  {
  }

  // ---------------------------------------------------------------------
  // Labels of an image
  // ---------------------------------------------------------------------

  /** Labels keep contour order. */
  lemma {:induction false} LabelsOfAppend(a: seq<Candidate>, b: seq<Candidate>, width: nat, height: nat, worldName: string)
    ensures LabelsOf(a + b, width, height, worldName) ==
      LabelsOf(a, width, height, worldName) + LabelsOf(b, width, height, worldName)
    decreases |b|
  {
    if b == [] {
      assert a + b == a;
    } else {
      var last := b[|b| - 1];
      assert (a + b)[..|a + b| - 1] == a + b[..|b| - 1];
      assert (a + b)[|a + b| - 1] == last;
      LabelsOfAppend(a, b[..|b| - 1], width, height, worldName);
    }
  }

  /** A candidate contributes a label exactly when both filters keep its
      box, and then that label carries the decided class and the box's
      normalised geometry. The decision is never `None`, so the
      `is not None` guard of the contour loop never skips a box. */
  lemma LabelForIff(c: Candidate, width: nat, height: nat, worldName: string)
    ensures LabelFor(c, width, height, worldName) != [] <==> KeptBox(c.box, width, height)
    ensures KeptBox(c.box, width, height) ==>
      LabelFor(c, width, height, worldName) ==
        [Normalize(CheckColor(c.counts, worldName).value, c.box, width, height)]
  {
  }

  /** An image gets no label exactly when every box is filtered out. */
  lemma {:induction false} LabelsOfEmptyIff(cs: seq<Candidate>, width: nat, height: nat, worldName: string)
    ensures LabelsOf(cs, width, height, worldName) == [] <==>
      forall i :: 0 <= i < |cs| ==> !KeptBox(cs[i].box, width, height)
  {
    if cs != [] {
      var init := cs[..|cs| - 1];
      LabelsOfEmptyIff(init, width, height, worldName);
      LabelForIff(cs[|cs| - 1], width, height, worldName);
      if forall i :: 0 <= i < |init| ==> !KeptBox(init[i].box, width, height) {
        if !KeptBox(cs[|cs| - 1].box, width, height) {
          forall i | 0 <= i < |cs| ensures !KeptBox(cs[i].box, width, height) {
            if i < |init| {
              assert cs[i] == init[i];
            }
          }
        }
      } else {
        var i :| 0 <= i < |init| && KeptBox(init[i].box, width, height);
        assert cs[i] == init[i];
      }
    }
  }

  predicate ValidLabel(l: Label) {
    && l.classId in {TrafficLight, TrafficLightRed, TrafficLightYellow, TrafficLightGreen}
    && 0.0 <= l.cx < 1.0 && 0.0 <= l.cy < 1.0
    && 0.0 < l.w < 1.0 && 0.0 < l.h < 1.0
  }

  /** Every emitted label has a known class id and fields in [0, 1). */
  lemma {:induction false} LabelsOfValid(cs: seq<Candidate>, width: nat, height: nat, worldName: string)
    ensures forall l :: l in LabelsOf(cs, width, height, worldName) ==> ValidLabel(l)
  {
    if cs != [] {
      var c := cs[|cs| - 1];
      LabelsOfValid(cs[..|cs| - 1], width, height, worldName);
      if KeptBox(c.box, width, height) {
        NormalizeInUnitRange(CheckColor(c.counts, worldName).value, c.box, width, height);
      }
    }
  }

  // ---------------------------------------------------------------------
  // Output files
  // ---------------------------------------------------------------------

  /** `splitext` drops a dot-free extension from a base name that has a
      character other than a dot. */
  lemma StemOfExtension(s: string, e: string)
    requires '/' !in s && '/' !in e && '.' !in e
    requires exists i :: 0 <= i < |s| && s[i] != '.'
    ensures Stem(s + "." + e) == s
  {
    var p := s + "." + e;
    assert p[|s|] == '.';
    assert forall k :: |s| < k < |p| ==> p[k] == e[k - |s| - 1];
    assert LastIndexOf(p, '.') == |s|;
    var i :| 0 <= i < |s| && s[i] != '.';
    assert p[i] == s[i];
    assert p[..|s|] == s;
  }

  /** The label file of the RGB frame `f` is named after the frame. */
  lemma CaptureFrameLabelName(f: nat)
    ensures Stem(Pad10(f) + ".png") == Pad10(f)
  {
    var s := Pad10(f);
    assert s[0] != '.';
    assert "." + "png" == ".png";
    assert s + "." + "png" == s + ".png";
    StemOfExtension(s, "png");
  }

  function CountChar(s: string, c: char): nat {
    if s == [] then 0 else CountChar(s[..|s| - 1], c) + (if s[|s| - 1] == c then 1 else 0)
  }

  lemma {:induction false} CountCharAppend(a: string, b: string, c: char)
    ensures CountChar(a + b, c) == CountChar(a, c) + CountChar(b, c)
    decreases |b|
  {
    if b == [] {
      assert a + b == a;
    } else {
      assert (a + b)[..|a + b| - 1] == a + b[..|b| - 1];
      CountCharAppend(a, b[..|b| - 1], c);
    }
  }

  lemma {:induction false} CountCharAbsent(s: string, c: char)
    requires c !in s
    ensures CountChar(s, c) == 0
  {
    if s != [] {
      CountCharAbsent(s[..|s| - 1], c);
    }
  }

  /** The label file holds one line per label: when the number text has no
      newline, it contains exactly as many newlines as labels. */
  lemma {:induction false} LabelTextLines(labels: seq<Label>, render: real -> string)
    requires forall x :: '\n' !in render(x)
    ensures CountChar(LabelText(labels, render), '\n') == |labels|
  {
    if labels != [] {
      var init, l := labels[..|labels| - 1], labels[|labels| - 1];
      LabelTextLines(init, render);
      var line := LabelLine(l, render);
      assert '\n' !in line by {
        var d := Digits(l.classId);
        assert forall i :: 0 <= i < |d| ==> IsDigit(d[i]);
        assert '\n' !in d;
      }
      CountCharAbsent(line, '\n');
      CountCharAppend(LabelText(init, render), line, '\n');
      CountCharAppend(LabelText(init, render) + line, "\n", '\n');
    }
  }

  /** An image yields files exactly when some box passes both filters, and
      then the label file of RGB frame `f` is `<labels>/<frame>.txt`. */
  lemma FrameEmission(f: nat, imageOutPath: string, labelOutPath: string,
                      cs: seq<Candidate>, width: nat, height: nat, worldName: string,
                      render: real -> string)
    ensures var name := Pad10(f) + ".png";
      var ws := Emission(imageOutPath, labelOutPath, name, LabelsOf(cs, width, height, worldName), render);
      && (ws != [] <==> exists i :: 0 <= i < |cs| && KeptBox(cs[i].box, width, height))
      && (ws != [] ==> ws[0].path == imageOutPath + "/" + name
                       && ws[1].path == labelOutPath + "/" + Pad10(f) + ".txt")
  {
    LabelsOfEmptyIff(cs, width, height, worldName);
    CaptureFrameLabelName(f);
  }
}
