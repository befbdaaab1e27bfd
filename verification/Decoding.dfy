/** Post-processing of the network output: the walk over the flat buffer, candidate selection, and the
    assembly of detections. Floating-point numbers are modelled as reals. */
module Decoding {
  import opened Types

  const CONFIDENCE_THRESHOLD := 0.25
  const SCORE_THRESHOLD := 0.45

  /** What `minMaxLoc` promises about the place of a maximum, whichever of several it picks. */
  ghost predicate LocatesMax(locate: seq<real> -> nat) {
    forall s: seq<real> :: |s| > 0 ==> locate(s) < |s| && forall j :: 0 <= j < |s| ==> s[j] <= s[locate(s)]
  }

  /** One such place: the first of the maxima. */
  function FirstMax(s: seq<real>): nat {
    if |s| <= 1 then 0
    else
      var m := FirstMax(s[..|s| - 1]);
      if m < |s| - 1 && s[m] >= s[|s| - 1] then m else |s| - 1
  }

  lemma {:induction false} FirstMaxIsMax(s: seq<real>)
    requires |s| > 0
    ensures FirstMax(s) < |s| && forall j :: 0 <= j < |s| ==> s[j] <= s[FirstMax(s)]
  {
    if |s| == 1 {
    } else {
      FirstMaxIsMax(s[..|s| - 1]);
    }
  }

  /** The promise can be kept. */
  lemma FirstMaxLocates()
    ensures LocatesMax(FirstMax)
  {
    forall s: seq<real> | |s| > 0
      ensures FirstMax(s) < |s| && forall j :: 0 <= j < |s| ==> s[j] <= s[FirstMax(s)]
    {
      FirstMaxIsMax(s);
    }
  }

  /** `int(r)`: truncation toward zero. */
  function Truncate(r: real): int {
    if r >= 0.0 then r.Floor else -((-r).Floor)
  }

  /** `t` is `r` without its fraction, on either side of zero. */
  predicate DropsFraction(t: int, r: real) {
    if r >= 0.0 then t as real <= r < t as real + 1.0 else t as real - 1.0 < r <= t as real
  }

  lemma TruncateDropsFraction(r: real)
    ensures DropsFraction(Truncate(r), r)
  {
  }

  /** The network's box around a centre, scaled to the image and truncated. */
  function ScaledBox(x: real, y: real, w: real, h: real, xFactor: real, yFactor: real): Rect {
    Rect(Truncate((x - 0.5 * w) * xFactor), Truncate((y - 0.5 * h) * yFactor),
         Truncate(w * xFactor), Truncate(h * yFactor))
  }

  /** The box begins half its extent before the centre; start and extent are scaled, then truncated. */
  lemma ScaledBoxParts(x: real, y: real, w: real, h: real, xFactor: real, yFactor: real)
    ensures var b := ScaledBox(x, y, w, h, xFactor, yFactor);
            && DropsFraction(b.x, (x - 0.5 * w) * xFactor) && DropsFraction(b.width, w * xFactor)
            && DropsFraction(b.y, (y - 0.5 * h) * yFactor) && DropsFraction(b.height, h * yFactor)
  {
    TruncateDropsFraction((x - 0.5 * w) * xFactor);
    TruncateDropsFraction((y - 0.5 * h) * yFactor);
    TruncateDropsFraction(w * xFactor);
    TruncateDropsFraction(h * yFactor);
    hide Truncate, DropsFraction;
  }

  // ----- specification: anchors, in order, filtered and mapped -----

  /** A candidate and the anchor it comes from. */
  datatype Candidate = Candidate(anchor: nat, classId: nat, confidence: real, box: Rect)

  datatype Version = V5 | V8

  /** Everything the decode loop takes from the model besides the buffer. */
  datatype Decoder = Decoder(version: Version, classes: nat, locate: seq<real> -> nat, xFactor: real, yFactor: real) {

    ghost predicate Valid() { classes > 0 && forall s: seq<real> :: |s| == classes ==> locate(s) < classes }

    /** Where the class scores of an anchor begin. */
    function ScoresAt(): nat { if version.V8? then 4 else 5 }

    function Scores(anchor: seq<real>): seq<real>
      requires |anchor| >= ScoresAt() + classes
    {
      anchor[ScoresAt()..ScoresAt() + classes]
    }

    /** v8 keeps an anchor whose best class score exceeds the confidence threshold; v5 keeps one whose
        objectness reaches it and whose best class score exceeds the score threshold. */
    predicate Keeps(anchor: seq<real>, best: real)
      requires |anchor| >= ScoresAt()
    {
      if version.V8? then best > CONFIDENCE_THRESHOLD
      else anchor[4] >= CONFIDENCE_THRESHOLD && best > SCORE_THRESHOLD
    }

    /** The candidate of anchor number `n`, if it is kept. */
    ghost function Picked(a: seq<real>, n: nat): seq<Candidate>
      requires Valid() && |a| >= ScoresAt() + classes
    {
      var c := locate(Scores(a));
      var best := Scores(a)[c];
      if Keeps(a, best)
      then [Candidate(n, c, if version.V8? then best else a[4], ScaledBox(a[0], a[1], a[2], a[3], xFactor, yFactor))]
      else []
    }

    ghost predicate Fits(anchors: seq<seq<real>>) {
      forall i :: 0 <= i < |anchors| ==> |anchors[i]| >= ScoresAt() + classes
    }

    /** The candidates of the first `n` anchors, in order. */
    ghost function Kept(anchors: seq<seq<real>>, n: nat): seq<Candidate>
      requires Valid() && Fits(anchors) && n <= |anchors|
    {
      if n == 0 then [] else Kept(anchors, n - 1) + Picked(anchors[n - 1], n - 1)
    }
  }

  // ----- flat buffers -----

  /** Where row `i` of a flat buffer with rows of length `d` begins: the pointer after `i` strides. */
  function Offset(i: nat, d: nat): nat {
    if i == 0 then 0 else Offset(i - 1, d) + d
  }

  lemma {:induction false} OffsetIsProduct(i: nat, d: nat)
    ensures Offset(i, d) == i * d
  {
    if i == 0 {
    } else {
      OffsetIsProduct(i - 1, d);
    }
  }

  lemma {:induction false} OffsetWithin(i: nat, rows: nat, d: nat)
    requires i < rows
    ensures Offset(i, d) + d <= Offset(rows, d)
    decreases rows
  {
    if i == rows - 1 {
    } else {
      OffsetWithin(i, rows - 1, d);
    }
  }

  /** The walk stays inside the buffer exactly when a row holds the box and all class scores. */
  lemma WalkInBounds(v: Version, classes: nat, rows: nat, d: nat)
    requires rows > 0
    ensures (forall i :: 0 <= i < rows ==> Offset(i, d) + (if v.V8? then 4 else 5) + classes <= Offset(rows, d))
            <==> (if v.V8? then 4 else 5) + classes <= d
  {
    forall i | 0 <= i < rows ensures Offset(i, d) + d <= Offset(rows, d) {
      OffsetWithin(i, rows, d);
    }
    assert Offset(rows, d) == Offset(rows - 1, d) + d;
  }

  /** Anchor `i` of an anchor-major buffer of `rows` anchors with `d` channels. */
  function Row(buffer: seq<real>, rows: nat, d: nat, i: nat): (r: seq<real>)
    requires |buffer| == Offset(rows, d) && i < rows
    ensures |r| == d
  {
    OffsetWithin(i, rows, d);
    buffer[Offset(i, d)..Offset(i, d) + d]
  }

  function Rows(buffer: seq<real>, rows: nat, d: nat): (r: seq<seq<real>>)
    requires |buffer| == Offset(rows, d)
    ensures |r| == rows && forall i :: 0 <= i < rows ==> |r[i]| == d
  {
    seq(rows, i requires 0 <= i < rows && |buffer| == Offset(rows, d) => Row(buffer, rows, d, i))
  }

  /** Anchor `i` of the network's channel-major output. */
  function Column(output: seq<real>, rows: nat, d: nat, i: nat): (r: seq<real>)
    requires |output| == Offset(d, rows) && i < rows
    ensures |r| == d
  {
    seq(d, c requires 0 <= c < d => OffsetWithin(c, d, rows); output[Offset(c, rows) + i])
  }

  function Columns(output: seq<real>, rows: nat, d: nat): (r: seq<seq<real>>)
    requires |output| == Offset(d, rows)
    ensures |r| == rows && forall i :: 0 <= i < rows ==> |r[i]| == d
  {
    seq(rows, i requires 0 <= i < rows => Column(output, rows, d, i))
  }

  /** `cv::transpose` of the output reshaped to `d` rows: the anchors one after the other. */
  function Transposed(output: seq<real>, rows: nat, d: nat, upTo: nat): (buffer: seq<real>)
    requires |output| == Offset(d, rows) && upTo <= rows
    ensures |buffer| == Offset(upTo, d)
  {
    if upTo == 0 then []
    else Transposed(output, rows, d, upTo - 1) + Column(output, rows, d, upTo - 1)
  }

  /** After the transposition anchor `i` lies contiguously, and holds what the channel-major output
      holds for it. */
  lemma {:induction false} TransposedRow(output: seq<real>, rows: nat, d: nat, upTo: nat, i: nat)
    requires |output| == Offset(d, rows) && i < upTo <= rows
    ensures Row(Transposed(output, rows, d, upTo), upTo, d, i) == Column(output, rows, d, i)
    decreases upTo
  {
    var before := Transposed(output, rows, d, upTo - 1);
    var o := Offset(i, d);
    if i == upTo - 1 {
    } else {
      TransposedRow(output, rows, d, upTo - 1, i);
      OffsetWithin(i, upTo - 1, d);
      assert (before + Column(output, rows, d, upTo - 1))[o..o + d] == before[o..o + d];
    }
  }

  /** The same by position: channel `c` of anchor `i`, before and after the transposition. */
  lemma TransposedAt(output: seq<real>, rows: nat, d: nat, i: nat, c: nat)
    requires |output| == Offset(d, rows) && i < rows && c < d
    ensures var buffer := Transposed(output, rows, d, rows);
            && 0 <= i * d + c < |buffer| && 0 <= c * rows + i < |output|
            && buffer[i * d + c] == output[c * rows + i]
  {
    OffsetIsProduct(i, d);
    OffsetIsProduct(c, rows);
    OffsetWithin(i, rows, d);
    OffsetWithin(c, d, rows);
    TransposedRow(output, rows, d, rows, i);
    assert Row(Transposed(output, rows, d, rows), rows, d, i)[c] == output[Offset(c, rows) + i];
  }

  lemma ColumnsAt(output: seq<real>, rows: nat, d: nat, i: nat, c: nat)
    requires |output| == Offset(d, rows) && i < rows && c < d
    ensures 0 <= c * rows + i < |output| && Columns(output, rows, d)[i][c] == output[c * rows + i]
  {
    OffsetIsProduct(c, rows);
    OffsetWithin(c, d, rows);
  }

  lemma RowsAt(output: seq<real>, rows: nat, d: nat, i: nat, c: nat)
    requires |output| == Offset(rows, d) && i < rows && c < d
    ensures 0 <= i * d + c < |output| && Rows(output, rows, d)[i][c] == output[i * d + c]
  {
    OffsetIsProduct(i, d);
    OffsetWithin(i, rows, d);
  }

  // ----- the candidate vectors -----

  /** The three parallel vectors hold, position by position, one and the same candidate sequence. */
  ghost predicate Aligned(cs: seq<Candidate>, classIds: seq<nat>, confidences: seq<real>, boxes: seq<Rect>) {
    && |classIds| == |confidences| == |boxes| == |cs|
    && forall k :: 0 <= k < |cs| ==>
         cs[k].classId == classIds[k] && cs[k].confidence == confidences[k] && cs[k].box == boxes[k]
  }

  lemma AlignedSnoc(cs: seq<Candidate>, c: Candidate, classIds: seq<nat>, confidences: seq<real>, boxes: seq<Rect>)
    requires Aligned(cs, classIds, confidences, boxes)
    ensures Aligned(cs + [c], classIds + [c.classId], confidences + [c.confidence], boxes + [c.box])
  {
  }

  lemma SliceOfSlice(buffer: seq<real>, data: nat, d: nat, at: nat, n: nat)
    requires data + d <= |buffer| && at + n <= d
    ensures buffer[data..data + d][at..at + n] == buffer[data + at..data + at + n]
  {
    var a, b := buffer[data..data + d][at..at + n], buffer[data + at..data + at + n];
    assert forall k :: 0 <= k < n ==> a[k] == b[k];
  }

  /** What the anchor that starts at `data` contributes, read straight from the buffer. */
  ghost function PickedAt(m: Decoder, buffer: seq<real>, data: nat, n: nat): seq<Candidate>
    requires m.Valid() && data + m.ScoresAt() + m.classes <= |buffer|
  {
    var at := data + m.ScoresAt();
    var scores := buffer[at..at + m.classes];
    var c := m.locate(scores);
    var best := scores[c];
    if (if m.version.V8? then best > CONFIDENCE_THRESHOLD
        else buffer[data + 4] >= CONFIDENCE_THRESHOLD && best > SCORE_THRESHOLD)
    then [Candidate(n, c, if m.version.V8? then best else buffer[data + 4], BoxAt(buffer, data, m.xFactor, m.yFactor))]
    else []
  }

  function BoxAt(buffer: seq<real>, data: nat, xFactor: real, yFactor: real): Rect
    requires data + 4 <= |buffer|
  {
    ScaledBox(buffer[data], buffer[data + 1], buffer[data + 2], buffer[data + 3], xFactor, yFactor)
  }

  lemma PickedFromBuffer(m: Decoder, buffer: seq<real>, data: nat, d: nat, n: nat)
    requires m.Valid() && d >= m.ScoresAt() + m.classes && data + d <= |buffer|
    ensures m.Picked(buffer[data..data + d], n) == PickedAt(m, buffer, data, n)
  {
    SliceOfSlice(buffer, data, d, m.ScoresAt(), m.classes);
  }

  /** The box stored at `data`. */
  method ReadBox(buffer: seq<real>, data: nat, xFactor: real, yFactor: real) returns (box: Rect)
    requires data + 4 <= |buffer|
    ensures box == BoxAt(buffer, data, xFactor, yFactor)
  {
    var x, y, w, h := buffer[data], buffer[data + 1], buffer[data + 2], buffer[data + 3];
    var left := Truncate((x - 0.5 * w) * xFactor);
    var top := Truncate((y - 0.5 * h) * yFactor);
    var width := Truncate(w * xFactor);
    var height := Truncate(h * yFactor);
    return Rect(left, top, width, height);
  }

  /** One more anchor of an anchor-major buffer. */
  lemma NextAnchor(m: Decoder, anchors: seq<seq<real>>, buffer: seq<real>, rows: nat, d: nat, i: nat)
    requires m.Valid() && i < rows == |anchors| && m.Fits(anchors) && d >= m.ScoresAt() + m.classes
    requires |buffer| == Offset(rows, d) && anchors[i] == Row(buffer, rows, d, i)
    ensures Offset(i, d) + d <= |buffer|
    ensures m.Kept(anchors, i + 1) == m.Kept(anchors, i) + PickedAt(m, buffer, Offset(i, d), i)
  {
    OffsetWithin(i, rows, d);
    PickedFromBuffer(m, buffer, Offset(i, d), d, i);
  }

  /** The v8 loop body: the anchor at `data` is appended to the three vectors or to none. */
  method VisitV8(m: Decoder, buffer: seq<real>, data: nat, ghost n: nat, ghost kept: seq<Candidate>,
                 classIds: seq<nat>, confidences: seq<real>, boxes: seq<Rect>)
    returns (classIds': seq<nat>, confidences': seq<real>, boxes': seq<Rect>)
    requires m.Valid() && m.version.V8? && data + 4 + m.classes <= |buffer|
    requires Aligned(kept, classIds, confidences, boxes)
    ensures Aligned(kept + PickedAt(m, buffer, data, n), classIds', confidences', boxes')
  {
    classIds', confidences', boxes' := classIds, confidences, boxes;
    var scores := buffer[data + 4..data + 4 + m.classes];
    var classId := m.locate(scores);
    var maxClassScore := scores[classId];
    if maxClassScore > CONFIDENCE_THRESHOLD {
      var box := ReadBox(buffer, data, m.xFactor, m.yFactor);
      AlignedSnoc(kept, Candidate(n, classId, maxClassScore, box), classIds, confidences, boxes);
      confidences' := confidences' + [maxClassScore];
      classIds' := classIds' + [classId];
      boxes' := boxes' + [box];
    }
  }

  /** The v5 loop body: an objectness test first, and the objectness as confidence. */
  method VisitV5(m: Decoder, buffer: seq<real>, data: nat, ghost n: nat, ghost kept: seq<Candidate>,
                 classIds: seq<nat>, confidences: seq<real>, boxes: seq<Rect>)
    returns (classIds': seq<nat>, confidences': seq<real>, boxes': seq<Rect>)
    requires m.Valid() && m.version.V5? && data + 5 + m.classes <= |buffer|
    requires Aligned(kept, classIds, confidences, boxes)
    ensures Aligned(kept + PickedAt(m, buffer, data, n), classIds', confidences', boxes')
  {
    classIds', confidences', boxes' := classIds, confidences, boxes;
    var confidence := buffer[data + 4];
    if confidence >= CONFIDENCE_THRESHOLD {
      var scores := buffer[data + 5..data + 5 + m.classes];
      var classId := m.locate(scores);
      var maxClassScore := scores[classId];
      if maxClassScore > SCORE_THRESHOLD {
        var box := ReadBox(buffer, data, m.xFactor, m.yFactor);
        AlignedSnoc(kept, Candidate(n, classId, confidence, box), classIds, confidences, boxes);
        confidences' := confidences' + [confidence];
        classIds' := classIds' + [classId];
        boxes' := boxes' + [box];
      }
    }
  }

  /** The v8 decode loop: a pointer walks the transposed buffer in strides of `dimensions`. The vectors
      it fills are the order-preserving filter-and-map over the anchors of the original output. */
  method DecodeV8(m: Decoder, output: seq<real>, rows: nat, dimensions: nat)
    returns (classIds: seq<nat>, confidences: seq<real>, boxes: seq<Rect>)
    requires m.Valid() && m.version.V8? && |output| == Offset(dimensions, rows) && dimensions >= 4 + m.classes
    ensures Aligned(m.Kept(Columns(output, rows, dimensions), rows), classIds, confidences, boxes)
  {
    var buffer := Transposed(output, rows, dimensions, rows);
    ghost var anchors := Columns(output, rows, dimensions);
    assert m.Fits(anchors);
    classIds, confidences, boxes := [], [], [];
    var i, data := 0, 0;
    while i < rows
      invariant 0 <= i <= rows && data == Offset(i, dimensions)
      invariant Aligned(m.Kept(anchors, i), classIds, confidences, boxes)
    {
      assert anchors[i] == Row(buffer, rows, dimensions, i) by {
        TransposedRow(output, rows, dimensions, rows, i);
      }
      NextAnchor(m, anchors, buffer, rows, dimensions, i);
      classIds, confidences, boxes := VisitV8(m, buffer, data, i, m.Kept(anchors, i), classIds, confidences, boxes);
      data := data + dimensions;
      i := i + 1;
    }
  }

  /** The v5 decode loop: the output is anchor-major already. */
  method DecodeV5(m: Decoder, output: seq<real>, rows: nat, dimensions: nat)
    returns (classIds: seq<nat>, confidences: seq<real>, boxes: seq<Rect>)
    requires m.Valid() && m.version.V5? && |output| == Offset(rows, dimensions) && dimensions >= 5 + m.classes
    ensures Aligned(m.Kept(Rows(output, rows, dimensions), rows), classIds, confidences, boxes)
  {
    ghost var anchors := Rows(output, rows, dimensions);
    assert m.Fits(anchors);
    classIds, confidences, boxes := [], [], [];
    var i, data := 0, 0;
    while i < rows
      invariant 0 <= i <= rows && data == Offset(i, dimensions)
      invariant Aligned(m.Kept(anchors, i), classIds, confidences, boxes)
    {
      assert anchors[i] == Row(output, rows, dimensions, i);
      NextAnchor(m, anchors, output, rows, dimensions, i);
      classIds, confidences, boxes := VisitV5(m, output, data, i, m.Kept(anchors, i), classIds, confidences, boxes);
      data := data + dimensions;
      i := i + 1;
    }
  }
}
