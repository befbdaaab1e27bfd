/** From an image and the network's output to detections. */
module Yolo {
  import opened Types
  import opened Decoding
  import opened Letterbox

  // ----- what the candidates are -----

  /** The candidate comes from its anchor: a class of maximal score, above the model's thresholds, and
      the confidence and box of that anchor. */
  ghost predicate ComesFrom(m: Decoder, c: Candidate, anchors: seq<seq<real>>)
    requires m.Fits(anchors)
  {
    && c.anchor < |anchors| && c.classId < m.classes
    && var a := anchors[c.anchor];
       var scores := m.Scores(a);
       && (forall j :: 0 <= j < m.classes ==> scores[j] <= scores[c.classId])
       && m.Keeps(a, scores[c.classId])
       && c.confidence == (if m.version.V8? then scores[c.classId] else a[4])
       && c.box == ScaledBox(a[0], a[1], a[2], a[3], m.xFactor, m.yFactor)
  }

  /** Candidates from ascending, hence distinct, anchors below `n`, each from its own. */
  ghost predicate Sound(m: Decoder, cs: seq<Candidate>, anchors: seq<seq<real>>, n: nat)
    requires m.Fits(anchors)
  {
    && (forall k :: 0 <= k < |cs| ==> cs[k].anchor < n && ComesFrom(m, cs[k], anchors))
    && (forall i, k :: 0 <= i < k < |cs| ==> cs[i].anchor < cs[k].anchor)
  }

  /** Anchor number `n` gives at most one candidate, its own. */
  ghost predicate PicksOwn(m: Decoder, p: seq<Candidate>, anchors: seq<seq<real>>, n: nat)
    requires m.Fits(anchors)
  {
    p == [] || (|p| == 1 && p[0].anchor == n && ComesFrom(m, p[0], anchors))
  }

  lemma SoundNext(m: Decoder, cs: seq<Candidate>, p: seq<Candidate>, anchors: seq<seq<real>>, n: nat)
    requires m.Fits(anchors) && Sound(m, cs, anchors, n) && PicksOwn(m, p, anchors, n)
    ensures Sound(m, cs + p, anchors, n + 1)
  {
  }

  lemma PickedComesFrom(m: Decoder, anchors: seq<seq<real>>, n: nat)
    requires m.Valid() && LocatesMax(m.locate) && m.Fits(anchors) && n < |anchors|
    ensures PicksOwn(m, m.Picked(anchors[n], n), anchors, n)
  {
    var scores := m.Scores(anchors[n]);
    assert |scores| > 0;
    assert forall j :: 0 <= j < |scores| ==> scores[j] <= scores[m.locate(scores)];
  }

  lemma {:induction false} KeptSound(m: Decoder, anchors: seq<seq<real>>, n: nat)
    requires m.Valid() && m.Fits(anchors) && n <= |anchors|
    requires forall i :: 0 <= i < |anchors| ==> PicksOwn(m, m.Picked(anchors[i], i), anchors, i)
    ensures Sound(m, m.Kept(anchors, n), anchors, n)
  {
    if n == 0 {
    } else {
      KeptSound(m, anchors, n - 1);
      SoundNext(m, m.Kept(anchors, n - 1), m.Picked(anchors[n - 1], n - 1), anchors, n - 1);
    }
  }

  /** The kept candidates come from ascending, hence distinct, anchors, and each from its own. */
  lemma KeptComeFrom(m: Decoder, anchors: seq<seq<real>>)
    requires m.Valid() && LocatesMax(m.locate) && m.Fits(anchors)
    ensures Sound(m, m.Kept(anchors, |anchors|), anchors, |anchors|)
  {
    forall i | 0 <= i < |anchors| ensures PicksOwn(m, m.Picked(anchors[i], i), anchors, i) {
      PickedComesFrom(m, anchors, i);
    }
    KeptSound(m, anchors, |anchors|);
  }

  /** No anchor that passes the thresholds is missed. */
  lemma {:induction false} KeptComplete(m: Decoder, anchors: seq<seq<real>>, n: nat, i: nat)
    requires m.Valid() && m.Fits(anchors) && i < n <= |anchors|
    ensures (exists c :: c in m.Kept(anchors, n) && c.anchor == i)
            <==> var a := anchors[i];
                 if m.version.V8? then
                   var scores := a[4..4 + m.classes]; scores[m.locate(scores)] > 0.25
                 else
                   var scores := a[5..5 + m.classes]; a[4] >= 0.25 && scores[m.locate(scores)] > 0.45
  {
    hide LocatesMax, ScaledBox;
    var cs, more := m.Kept(anchors, n - 1), m.Picked(anchors[n - 1], n - 1);
    assert forall c :: c in m.Kept(anchors, n) <==> c in cs || c in more;
    assert forall c :: c in more ==> c.anchor == n - 1;
    AnchorsBelow(m, anchors, n - 1);
    if i < n - 1 {
      KeptComplete(m, anchors, n - 1, i);
    } else if more != [] {
      assert more[0] in more;
    }
  }

  lemma {:induction false} AnchorsBelow(m: Decoder, anchors: seq<seq<real>>, n: nat)
    requires m.Valid() && m.Fits(anchors) && n <= |anchors|
    ensures forall c :: c in m.Kept(anchors, n) ==> c.anchor < n
  {
    if n == 0 {
    } else {
      AnchorsBelow(m, anchors, n - 1);
    }
  }

  // ----- assembly -----

  /** The assembly loop: the candidates that survived suppression, in the order it returned them. */
  method Assemble(classIds: seq<nat>, confidences: seq<real>, boxes: seq<Rect>, nmsResult: seq<nat>,
                  labels: seq<string>, colors: seq<int>)
    returns (detections: seq<Detection>)
    requires |classIds| == |confidences| == |boxes| && |labels| == |colors|
    requires forall i :: 0 <= i < |nmsResult| ==> nmsResult[i] < |classIds|
    requires forall k :: 0 <= k < |classIds| ==> classIds[k] < |labels|
    ensures |detections| == |nmsResult|
    ensures forall i :: 0 <= i < |nmsResult| ==>
              var k := nmsResult[i];
              detections[i]
              == Detection(classIds[k], labels[classIds[k]], confidences[k], colors[classIds[k]], boxes[k])
  {
    detections := [];
    var i := 0;
    while i < |nmsResult|
      invariant 0 <= i <= |nmsResult| && |detections| == i
      invariant forall j :: 0 <= j < i ==>
                  var k := nmsResult[j];
                  detections[j]
                  == Detection(classIds[k], labels[classIds[k]], confidences[k], colors[classIds[k]], boxes[k])
    {
      var idx := nmsResult[i];
      var classId := classIds[idx];
      var result := Detection(classId, labels[classId], confidences[idx], colors[classId], boxes[idx]);
      detections := detections + [result];
      i := i + 1;
    }
  }

  ghost function BoxesOf(cs: seq<Candidate>): (r: seq<Rect>)
    ensures |r| == |cs| && forall k :: 0 <= k < |cs| ==> r[k] == cs[k].box
  {
    if cs == [] then [] else BoxesOf(cs[..|cs| - 1]) + [cs[|cs| - 1].box]
  }

  ghost function ConfidencesOf(cs: seq<Candidate>): (r: seq<real>)
    ensures |r| == |cs| && forall k :: 0 <= k < |cs| ==> r[k] == cs[k].confidence
  {
    if cs == [] then [] else ConfidencesOf(cs[..|cs| - 1]) + [cs[|cs| - 1].confidence]
  }

  /** The candidates that survive suppression, in its order. */
  ghost function Survivors(cs: seq<Candidate>, indices: seq<nat>): (r: seq<Candidate>)
    requires forall i :: 0 <= i < |indices| ==> indices[i] < |cs|
    ensures |r| == |indices| && forall i :: 0 <= i < |r| ==> r[i] == cs[indices[i]]
  {
    if indices == [] then [] else Survivors(cs, indices[..|indices| - 1]) + [cs[indices[|indices| - 1]]]
  }

  const NMS_THRESHOLD := 0.5

  /** Non-maximum suppression: boxes, confidences, a score and an overlap threshold give indices. */
  type Suppression = (seq<Rect>, seq<real>, real, real) -> seq<nat>

  /** What it promises: distinct indices of candidates whose confidence is above the score threshold. */
  ghost predicate Suppresses(indices: seq<nat>, confidences: seq<real>, score: real) {
    && (forall i :: 0 <= i < |indices| ==> indices[i] < |confidences| && confidences[indices[i]] > score)
    && (forall i, j :: 0 <= i < j < |indices| ==> indices[i] != indices[j])
  }

  ghost predicate IsSuppression(nms: Suppression) {
    forall boxes, confidences, score, overlap ::
      |boxes| == |confidences| ==> Suppresses(nms(boxes, confidences, score, overlap), confidences, score)
  }

  /** A suppression that suppresses no overlap: every candidate above the score threshold. */
  function Above(confidences: seq<real>, score: real): seq<nat> {
    if confidences == [] then []
    else
      var last := |confidences| - 1;
      Above(confidences[..last], score) + if confidences[last] > score then [last] else []
  }

  lemma SuppressesNothing(score: real)
    ensures Suppresses([], [], score)
  {
  }

  lemma SuppressesSnoc(indices: seq<nat>, confidences: seq<real>, c: real, score: real)
    requires Suppresses(indices, confidences, score)
    ensures Suppresses(indices + (if c > score then [|confidences|] else []), confidences + [c], score)
  {
  }

  lemma {:induction false} AboveSuppresses(confidences: seq<real>, score: real)
    ensures Suppresses(Above(confidences, score), confidences, score)
  {
    hide Suppresses;
    if confidences == [] {
      SuppressesNothing(score);
    } else {
      var last := |confidences| - 1;
      AboveSuppresses(confidences[..last], score);
      SuppressesSnoc(Above(confidences[..last], score), confidences[..last], confidences[last], score);
      assert confidences[..last] + [confidences[last]] == confidences;
    }
  }

  /** The promise can be kept. */
  lemma SuppressionExists()
    ensures IsSuppression((boxes: seq<Rect>, confidences, score, overlap: real) => Above(confidences, score))
  {
    forall confidences, score ensures Suppresses(Above(confidences, score), confidences, score) {
      AboveSuppresses(confidences, score);
    }
  }

  /** The candidates an image's detections are made of. */
  ghost function Selected(m: Decoder, anchors: seq<seq<real>>, nms: Suppression): seq<Candidate>
    requires m.Valid() && m.Fits(anchors) && IsSuppression(nms)
  {
    var cs := m.Kept(anchors, |anchors|);
    Survivors(cs, nms(BoxesOf(cs), ConfidencesOf(cs), SCORE_THRESHOLD, NMS_THRESHOLD))
  }

  /** One detection per selected candidate, in order, with its class's label and colour. */
  ghost predicate Shows(cs: seq<Candidate>, labels: seq<string>, colors: seq<int>, detections: seq<Detection>) {
    && |detections| == |cs| && |labels| == |colors|
    && forall i :: 0 <= i < |cs| ==>
         cs[i].classId < |labels|
         && detections[i] == Detection(cs[i].classId, labels[cs[i].classId], cs[i].confidence,
                                       colors[cs[i].classId], cs[i].box)
  }

  /** Result assembly: the selected candidates come from distinct anchors, and each has, of its anchor,
      a class of maximal score above the thresholds, the scaled box and the confidence, which is above
      the score threshold in either version. */
  lemma SelectedAreSound(m: Decoder, anchors: seq<seq<real>>, nms: Suppression)
    requires m.Valid() && LocatesMax(m.locate) && m.Fits(anchors) && IsSuppression(nms)
    ensures var cs := Selected(m, anchors, nms);
            && (forall i :: 0 <= i < |cs| ==> ComesFrom(m, cs[i], anchors) && cs[i].confidence > 0.45)
            && (forall i, j :: 0 <= i < j < |cs| ==> cs[i].anchor != cs[j].anchor)
  {
    var kept := m.Kept(anchors, |anchors|);
    assert Sound(m, kept, anchors, |anchors|) by { KeptComeFrom(m, anchors); }
    SurvivorsSound(m, kept, anchors, nms(BoxesOf(kept), ConfidencesOf(kept), SCORE_THRESHOLD, NMS_THRESHOLD));
  }

  lemma SurvivorsSound(m: Decoder, kept: seq<Candidate>, anchors: seq<seq<real>>, indices: seq<nat>)
    requires m.Fits(anchors) && Sound(m, kept, anchors, |anchors|)
    requires Suppresses(indices, ConfidencesOf(kept), SCORE_THRESHOLD)
    ensures var cs := Survivors(kept, indices);
            && (forall i :: 0 <= i < |cs| ==> ComesFrom(m, cs[i], anchors) && cs[i].confidence > SCORE_THRESHOLD)
            && (forall i, j :: 0 <= i < j < |cs| ==> cs[i].anchor != cs[j].anchor)
  {
    var cs := Survivors(kept, indices);
    forall i, j | 0 <= i < j < |cs| ensures cs[i].anchor != cs[j].anchor {
      var a, b := indices[i], indices[j];
      assert a != b;
      assert if a < b then kept[a].anchor < kept[b].anchor else kept[b].anchor < kept[a].anchor;
    }
  }

  /** What suppression is asked for. */
  lemma SelectedByThresholds(m: Decoder, anchors: seq<seq<real>>, nms: Suppression)
    requires m.Valid() && m.Fits(anchors) && IsSuppression(nms)
    ensures var cs := m.Kept(anchors, |anchors|);
            var indices := nms(BoxesOf(cs), ConfidencesOf(cs), 0.45, 0.5);
            && (forall i :: 0 <= i < |indices| ==> indices[i] < |cs|)
            && Selected(m, anchors, nms) == Survivors(cs, indices)
  {
  }

  /** A model; `letterBoxForSquare` is always on. */
  datatype Model = Model(labels: seq<string>, colors: seq<int>, width: real, height: real) {
    predicate Valid() { |labels| == |colors| > 0 && width > 0.0 && height > 0.0 }

    /** The sides of the image handed to the network. */
    function InputRows(rows: nat, cols: nat): nat { if width == height then Max(rows, cols) else rows }
    function InputCols(rows: nat, cols: nat): nat { if width == height then Max(rows, cols) else cols }

    /** What the decode loop takes from the model for an image of this size. */
    function DecoderFor(v: Version, locate: seq<real> -> nat, rows: nat, cols: nat): Decoder
      requires Valid()
    {
      Decoder(v, |labels|, locate, Factor(InputCols(rows, cols), width), Factor(InputRows(rows, cols), height))
    }
  }

  /** Suppression and assembly over aligned candidate vectors. */
  method SuppressAndAssemble(model: Model, m: Decoder, ghost anchors: seq<seq<real>>,
                             nms: Suppression,
                             classIds: seq<nat>, confidences: seq<real>, boxes: seq<Rect>)
    returns (found: seq<Detection>)
    requires model.Valid() && m.Valid() && m.Fits(anchors) && m.classes == |model.labels| && IsSuppression(nms)
    requires Aligned(m.Kept(anchors, |anchors|), classIds, confidences, boxes)
    requires forall k :: 0 <= k < |classIds| ==> classIds[k] < m.classes
    ensures Shows(Selected(m, anchors, nms), model.labels, model.colors, found)
  {
    ghost var kept := m.Kept(anchors, |anchors|);
    assert boxes == BoxesOf(kept) && confidences == ConfidencesOf(kept);
    var nmsResult := nms(boxes, confidences, SCORE_THRESHOLD, NMS_THRESHOLD);
    assert Suppresses(nmsResult, confidences, SCORE_THRESHOLD);
    found := Assemble(classIds, confidences, boxes, nmsResult, model.labels, model.colors);
  }

  /** v8 detection on one image; `output` is what the network returns for it. An image that is empty
      after letterboxing gives no batch element, and taking the first one throws. */
  method DetectV8(model: Model, image: array2<Pixel>, output: seq<real>, rows: nat, dimensions: nat,
                  locate: seq<real> -> nat, nms: Suppression)
    returns (outcome: Outcome)
    requires model.Valid() && LocatesMax(locate) && IsSuppression(nms)
    requires |output| == Offset(dimensions, rows) && dimensions >= 4 + |model.labels|
    ensures outcome.Thrown? <==> if model.width == model.height then image.Length0 == 0 && image.Length1 == 0
                                 else image.Length0 == 0 || image.Length1 == 0
    ensures outcome.Detected? ==>
              Shows(Selected(model.DecoderFor(V8, locate, image.Length0, image.Length1),
                             Columns(output, rows, dimensions), nms),
                    model.labels, model.colors, outcome.found)
  {
    var modelInput := image;
    if model.width == model.height {
      modelInput := FormatToSquare(image);
    }
    if modelInput.Length0 == 0 || modelInput.Length1 == 0 {
      return Thrown;
    }
    var m := Decoder(V8, |model.labels|, locate,
                     Factor(modelInput.Length1, model.width), Factor(modelInput.Length0, model.height));
    var classIds, confidences, boxes := DecodeV8(m, output, rows, dimensions);
    ghost var anchors := Columns(output, rows, dimensions);
    KeptClasses(m, anchors, rows);
    var found := SuppressAndAssemble(model, m, anchors, nms, classIds, confidences, boxes);
    return Detected(found);
  }

  /** v5 detection: the same assembly over the v5 candidates. The network library throws on an image
      without pixels. */
  method DetectV5(model: Model, image: array2<Pixel>, output: seq<real>, rows: nat, dimensions: nat,
                  locate: seq<real> -> nat, nms: Suppression)
    returns (outcome: Outcome)
    requires model.Valid() && LocatesMax(locate) && IsSuppression(nms)
    requires |output| == Offset(rows, dimensions) && dimensions >= 5 + |model.labels|
    ensures outcome.Thrown? <==> if model.width == model.height then image.Length0 == 0 && image.Length1 == 0
                                 else image.Length0 == 0 || image.Length1 == 0
    ensures outcome.Detected? ==>
              Shows(Selected(model.DecoderFor(V5, locate, image.Length0, image.Length1),
                             Rows(output, rows, dimensions), nms),
                    model.labels, model.colors, outcome.found)
  {
    var modelInput := image;
    if model.width == model.height {
      modelInput := FormatToSquare(image);
    }
    if modelInput.Length0 == 0 || modelInput.Length1 == 0 {
      return Thrown;
    }
    var m := Decoder(V5, |model.labels|, locate,
                     Factor(modelInput.Length1, model.width), Factor(modelInput.Length0, model.height));
    var classIds, confidences, boxes := DecodeV5(m, output, rows, dimensions);
    ghost var anchors := Rows(output, rows, dimensions);
    KeptClasses(m, anchors, rows);
    var found := SuppressAndAssemble(model, m, anchors, nms, classIds, confidences, boxes);
    return Detected(found);
  }

  lemma {:induction false} KeptClasses(m: Decoder, anchors: seq<seq<real>>, n: nat)
    requires m.Valid() && m.Fits(anchors) && n <= |anchors|
    ensures forall k :: 0 <= k < |m.Kept(anchors, n)| ==> m.Kept(anchors, n)[k].classId < m.classes
  {
    if n == 0 {
    } else {
      KeptClasses(m, anchors, n - 1);
    }
  }

  // ----- what a detection is, in terms of the network's output -----

  /** The side of the image along one axis that the network's coordinates are scaled to. */
  lemma DecoderScales(model: Model, v: Version, locate: seq<real> -> nat, rows: nat, cols: nat)
    requires model.Valid()
    ensures var m := model.DecoderFor(v, locate, rows, cols);
            && m.version == v && m.classes == |model.labels| && m.locate == locate
            && m.xFactor * model.width == (if model.width == model.height then Max(rows, cols) else cols) as real
            && m.yFactor * model.height == (if model.width == model.height then Max(rows, cols) else rows) as real
  {
  }

  /** For a square model both factors belong to the letterboxed image. */
  lemma DecoderScalesLetterboxed(model: Model, v: Version, locate: seq<real> -> nat, image: array2<Pixel>,
                                 square: array2<Pixel>)
    requires model.Valid() && model.width == model.height && IsLetterboxOf(square, image)
    ensures var m := model.DecoderFor(v, locate, image.Length0, image.Length1);
            && m.xFactor * model.width == square.Length1 as real
            && m.yFactor * model.height == square.Length0 as real
  {
    DecoderScales(model, v, locate, image.Length0, image.Length1);
  }

  lemma ScoresByPosition(m: Decoder, a: seq<real>, k: nat)
    requires |a| >= m.ScoresAt() + m.classes && k < m.classes
    requires forall j :: 0 <= j < m.classes ==> m.Scores(a)[j] <= m.Scores(a)[k]
    ensures var at := if m.version.V8? then 4 else 5;
            && m.Scores(a)[k] == a[at + k]
            && forall j :: at <= j < at + m.classes ==> a[j] <= a[at + k]
  {
    var at := m.ScoresAt();
    forall j | at <= j < at + m.classes ensures a[j] <= a[at + k] {
      assert m.Scores(a)[j - at] == a[j];
    }
  }

  /** The same for a candidate: its class, confidence and box, read off its anchor by position. */
  lemma CandidateMeans(m: Decoder, c: Candidate, anchors: seq<seq<real>>)
    requires m.Fits(anchors) && ComesFrom(m, c, anchors)
    ensures c.anchor < |anchors| && c.classId < m.classes
    ensures var a, at := anchors[c.anchor], if m.version.V8? then 4 else 5;
            && |a| >= at + m.classes
            && (forall j :: at <= j < at + m.classes ==> a[j] <= a[at + c.classId])
            && c.confidence == a[if m.version.V8? then 4 + c.classId else 4]
            && (if m.version.V8? then a[4 + c.classId] > 0.25 else a[4] >= 0.25 && a[5 + c.classId] > 0.45)
            && c.box == ScaledBox(a[0], a[1], a[2], a[3], m.xFactor, m.yFactor)
  {
    hide ScaledBox;
    ScoresByPosition(m, anchors[c.anchor], c.classId);
  }

  /** Detection number `i` comes from anchor `r`: its class is one of maximal score above the thresholds,
      its confidence, label and colour go with it, and its box is the anchor's, scaled and truncated. */
  lemma DetectionMeans(model: Model, v: Version, locate: seq<real> -> nat, nms: Suppression, rows: nat, cols: nat,
                       anchors: seq<seq<real>>, found: seq<Detection>, i: nat) returns (r: nat)
    requires model.Valid() && LocatesMax(locate) && IsSuppression(nms)
    requires var m := model.DecoderFor(v, locate, rows, cols);
             m.Valid() && m.Fits(anchors)
             && Shows(Selected(m, anchors, nms), model.labels, model.colors, found) && i < |found|
    ensures r < |anchors| && found[i].classId < |model.labels|
    ensures var a, k, m := anchors[r], found[i].classId, model.DecoderFor(v, locate, rows, cols);
            var at := if v.V8? then 4 else 5;
            && |a| >= at + |model.labels|
            && (forall j :: at <= j < at + |model.labels| ==> a[j] <= a[at + k])
            && found[i].className == model.labels[k] && found[i].color == model.colors[k]
            && found[i].confidence == a[if v.V8? then 4 + k else 4] && found[i].confidence > 0.45
            && (v.V5? ==> a[5 + k] > 0.45)
            && found[i].box == ScaledBox(a[0], a[1], a[2], a[3], m.xFactor, m.yFactor)
  {
    hide ScaledBox, LocatesMax, IsSuppression, ComesFrom, Selected, Factor;
    var m := model.DecoderFor(v, locate, rows, cols);
    SelectedAreSound(m, anchors, nms);
    var c := Selected(m, anchors, nms)[i];
    assert ComesFrom(m, c, anchors);
    r := c.anchor;
    CandidateMeans(m, c, anchors);
  }

  /** A network box inside the model's range, scaled by the decoder's factors, lies inside the image handed to
      the network. */
  lemma ScaledInside(model: Model, v: Version, locate: seq<real> -> nat, rows: nat, cols: nat,
                     x: real, y: real, w: real, h: real)
    requires model.Valid() && w >= 0.0 && h >= 0.0
    requires x - 0.5 * w >= 0.0 && x + 0.5 * w <= model.width && y - 0.5 * h >= 0.0 && y + 0.5 * h <= model.height
    ensures var m := model.DecoderFor(v, locate, rows, cols);
            var width := if model.width == model.height then Max(rows, cols) else cols;
            var height := if model.width == model.height then Max(rows, cols) else rows;
            var b := ScaledBox(x, y, w, h, m.xFactor, m.yFactor);
            && 0 <= b.x && 0 <= b.width && b.x + b.width <= width
            && 0 <= b.y && 0 <= b.height && b.y + b.height <= height
  {
    hide ScaledBox, Factor;
    BoxInside(x, y, w, h, model.width, model.height, model.InputCols(rows, cols), model.InputRows(rows, cols));
  }

  /** The anchor's box lies inside the model's range. */
  predicate InRange(a: seq<real>, model: Model)
    requires |a| >= 4
  {
    && a[2] >= 0.0 && a[3] >= 0.0
    && a[0] - 0.5 * a[2] >= 0.0 && a[0] + 0.5 * a[2] <= model.width
    && a[1] - 0.5 * a[3] >= 0.0 && a[1] + 0.5 * a[3] <= model.height
  }

  lemma Ranges(a: seq<real>, model: Model)
    requires |a| >= 4 && InRange(a, model)
    ensures a[2] >= 0.0 && a[3] >= 0.0
    ensures a[0] - 0.5 * a[2] >= 0.0 && a[0] + 0.5 * a[2] <= model.width
    ensures a[1] - 0.5 * a[3] >= 0.0 && a[1] + 0.5 * a[3] <= model.height
  {
  }

  /** Every detection whose network box lies inside the model's range lies inside the image handed to the
      network: the letterboxed one when the model is square. */
  lemma DetectionInside(model: Model, v: Version, locate: seq<real> -> nat, nms: Suppression, rows: nat, cols: nat,
                        anchors: seq<seq<real>>, found: seq<Detection>, i: nat) returns (r: nat)
    requires model.Valid() && LocatesMax(locate) && IsSuppression(nms)
    requires var m := model.DecoderFor(v, locate, rows, cols);
             m.Valid() && m.Fits(anchors)
             && Shows(Selected(m, anchors, nms), model.labels, model.colors, found) && i < |found|
    ensures r < |anchors| && |anchors[r]| >= 4
    ensures var b := found[i].box;
            var width := if model.width == model.height then Max(rows, cols) else cols;
            var height := if model.width == model.height then Max(rows, cols) else rows;
            InRange(anchors[r], model) ==>
              && 0 <= b.x && 0 <= b.width && b.x + b.width <= width
              && 0 <= b.y && 0 <= b.height && b.y + b.height <= height
  {
    hide Truncate, LocatesMax, IsSuppression, Selected, Shows, Factor, Max;
    hide InRange, ScaledBox;
    r := DetectionMeans(model, v, locate, nms, rows, cols, anchors, found, i);
    var a := anchors[r];
    if InRange(a, model) {
      Ranges(a, model);
      ScaledInside(model, v, locate, rows, cols, a[0], a[1], a[2], a[3]);
    }
  }
}
