/**
  * The JSON to CSV converter: every prediction record becomes one summary
  * row, one classification row per class string and one detection row per
  * detection, written to three CSV files. Each row here holds the values
  * handed to `csv.DictWriter`, in the column order of its header.
  */
module JsonToCsv {
  import opened Wrappers
  import opened Text
  import opened Json

  /** The eight columns `split_taxonomy` fills, in header order. */
  datatype Taxonomy = Taxonomy(
    classUuid: string,
    kingdom: string,
    tax1: string,
    tax2: string,
    tax3: string,
    tax4: string,
    tax5: string,
    commonName: string)
  {
    /** The eight fields in header order, `class_uuid` first and `common_name` last. */
    function Names(): seq<string> {
      [classUuid, kingdom, tax1, tax2, tax3, tax4, tax5, commonName]
    }
  }

  /** `split_taxonomy`: the `;`-separated segments, padded with `""` to nine, of which the first eight are named. */
  function SplitTaxonomy(classStr: string): Taxonomy {
    var parts := Pad(Split(classStr, ';'), 9, "");
    Taxonomy(parts[0], parts[1], parts[2], parts[3], parts[4], parts[5], parts[6],
             if |parts| > 7 then parts[7] else "")
  }

  /**
    * `split_taxonomy` never fails: field `j` is segment `j` when there is
    * one and `""` otherwise, and no segment from the ninth on reaches the
    * result.
    */
  lemma SplitTaxonomyFields(classStr: string)
    ensures var segments := Split(classStr, ';');
            forall j :: 0 <= j < 8 ==> SplitTaxonomy(classStr).Names()[j] == if j < |segments| then segments[j] else ""
  {
    var segments := Split(classStr, ';');
    var parts := Pad(segments, 9, "");
    assert |parts| >= 9;
    var names := SplitTaxonomy(classStr).Names();
    assert names == parts[..8];
    forall j | 0 <= j < 8
      ensures names[j] == if j < |segments| then segments[j] else ""
    {
      assert names[j] == parts[j];
    }
  }

  /** Taking a taxonomy string apart recovers the eight separator-free names it was joined from. */
  lemma TaxonomyRoundTrip(t: Taxonomy)
    requires forall j :: 0 <= j < 8 ==> ';' !in t.Names()[j]
    ensures SplitTaxonomy(Join(t.Names(), ';')) == t
  {
    var names := t.Names();
    SplitJoin(names, ';');
    SplitTaxonomyFields(Join(names, ';'));
    var r := SplitTaxonomy(Join(names, ';'));
    assert r.Names() == names;
  }

  /** A class string with two segments fills `class_uuid` and `kingdom` and leaves the other six fields `""`. */
  lemma TwoSegmentExample()
    ensures SplitTaxonomy("u;Animalia") == Taxonomy("u", "Animalia", "", "", "", "", "", "")
  {
    JoinCons("u", ["Animalia"], ';');
    assert ["u"] + ["Animalia"] == ["u", "Animalia"];
    assert Join(["u", "Animalia"], ';') == "u;Animalia";
    SplitJoin(["u", "Animalia"], ';');
    SplitTaxonomyFields("u;Animalia");
    var t := SplitTaxonomy("u;Animalia");
    assert t.Names() == ["u", "Animalia", "", "", "", "", "", ""];
  }

  /** A row of `predictions_summary.csv`. */
  datatype SummaryRow = SummaryRow(
    filepath: Scalar, country: Scalar, modelVersion: Scalar,
    prediction: Scalar, predictionScore: Scalar, predictionSource: Scalar,
    topClass: Scalar, topScore: Scalar, secondClass: Scalar, secondScore: Scalar,
    numClasses: nat, numDetections: nat,
    detectionLabel: Scalar, detectionConf: Scalar,
    bboxX: Scalar, bboxY: Scalar, bboxW: Scalar, bboxH: Scalar)

  /** A row of `classifications.csv`; the taxonomy columns sit between the rank and the score. */
  datatype ClassRow = ClassRow(
    filepath: Scalar, country: Scalar, modelVersion: Scalar,
    classRank: nat, taxonomy: Taxonomy, score: Scalar)

  /** A row of `detections.csv`. */
  datatype DetectionRow = DetectionRow(
    filepath: Scalar, country: Scalar, modelVersion: Scalar,
    detectionIndex: nat, category: Scalar, detLabel: Scalar, conf: Scalar,
    bboxX: Scalar, bboxY: Scalar, bboxW: Scalar, bboxH: Scalar)

  /** A detection's bbox after `d.get("bbox", ["", "", "", ""])` and `bbox += [""] * (4 - len(bbox))`. */
  function PaddedBox(d: Detection): (box: seq<Scalar>)
    ensures |box| >= 4
  {
    Pad(d.bbox.GetOr([Blank, Blank, Blank, Blank]), 4, Blank)
  }

  /**
    * The first four padded bbox values are the given ones followed by `""`
    * where the list is short; a longer list gives its first four; a missing
    * bbox gives four `""`.
    */
  lemma PaddedBoxValues(d: Detection)
    ensures forall k :: 0 <= k < 4 ==>
      PaddedBox(d)[k] == match d.bbox
                         case None => Blank
                         case Some(b) => if k < |b| then b[k] else Blank
  {
  }

  /** The summary row of one prediction. */
  function SummaryOf(p: Prediction): SummaryRow {
    var classes, scores, detections := Classes(p), Scores(p), Detections(p);
    var det0 := if |detections| > 0 then detections[0] else NoDetection;
    var box := PaddedBox(det0);
    SummaryRow(
      p.filepath.GetOr(Blank), p.country.GetOr(Blank), p.modelVersion.GetOr(Blank),
      p.prediction.GetOr(Blank), p.predictionScore.GetOr(Blank), p.predictionSource.GetOr(Blank),
      if |classes| > 0 then Str(classes[0]) else Blank,
      if |scores| > 0 then scores[0] else Blank,
      if |classes| > 1 then Str(classes[1]) else Blank,
      if |scores| > 1 then scores[1] else Blank,
      Max(|classes|, |scores|), |detections|,
      det0.detLabel.GetOr(Blank), det0.conf.GetOr(Blank),
      box[0], box[1], box[2], box[3])
  }

  /**
    * The six scalar columns are the prediction's own fields, `""` for an
    * absent key. Top and second class and score come from positions 0 and 1 of their
    * own lists, independently, `""` where that position is missing;
    * `num_classes` is the longer list's length; with no detection the label,
    * confidence and bbox columns are `""`, otherwise they are those of the
    * first detection.
    */
  lemma SummaryProperties(p: Prediction)
    ensures var row := SummaryOf(p);
      row.filepath == p.filepath.GetOr(Blank) && row.country == p.country.GetOr(Blank)
      && row.modelVersion == p.modelVersion.GetOr(Blank) && row.prediction == p.prediction.GetOr(Blank)
      && row.predictionScore == p.predictionScore.GetOr(Blank)
      && row.predictionSource == p.predictionSource.GetOr(Blank)
    ensures var row := SummaryOf(p);
      row.numClasses == Max(|Classes(p)|, |Scores(p)|)
      && row.numDetections == |Detections(p)|
      && row.topClass == (if |Classes(p)| > 0 then Str(Classes(p)[0]) else Blank)
      && row.secondClass == (if |Classes(p)| > 1 then Str(Classes(p)[1]) else Blank)
      && row.topScore == (if |Scores(p)| > 0 then Scores(p)[0] else Blank)
      && row.secondScore == (if |Scores(p)| > 1 then Scores(p)[1] else Blank)
    ensures var row := SummaryOf(p);
      |Detections(p)| == 0 ==>
        row.detectionLabel == row.detectionConf == Blank
        && row.bboxX == row.bboxY == row.bboxW == row.bboxH == Blank
    ensures var row := SummaryOf(p);
      |Detections(p)| > 0 ==>
        var d := Detections(p)[0];
        row.detectionLabel == d.detLabel.GetOr(Blank) && row.detectionConf == d.conf.GetOr(Blank)
        && [row.bboxX, row.bboxY, row.bboxW, row.bboxH] == PaddedBox(d)[..4]
  {
    PaddedBoxValues(NoDetection);
  }

  /**
    * The classification rows of `p` for the class strings `classes`, which
    * start at rank `rank`, paired with the remaining `scores`: one row per
    * class string, the score taken from the head of `scores` or `""` once
    * that list is used up. Scores beyond the class strings give no row.
    */
  function ClassRowsFrom(p: Prediction, classes: seq<string>, scores: seq<Scalar>, rank: nat): seq<ClassRow>
    decreases |classes|
  {
    if classes == [] then []
    else
      var score := if scores == [] then Blank else scores[0];
      var rest := if scores == [] then [] else scores[1..];
      [ClassRow(p.filepath.GetOr(Blank), p.country.GetOr(Blank), p.modelVersion.GetOr(Blank),
                rank, SplitTaxonomy(classes[0]), score)]
      + ClassRowsFrom(p, classes[1..], rest, rank + 1)
  }

  /** The rows `classifications.csv` receives for one prediction. */
  function ClassRowsOf(p: Prediction): seq<ClassRow> {
    ClassRowsFrom(p, Classes(p), Scores(p), 1)
  }

  /** Row `i` of ClassRowsFrom is built from class string `i` and score `i`, at rank `rank + i`. */
  lemma {:induction false} ClassRowsFromAt(p: Prediction, classes: seq<string>, scores: seq<Scalar>, rank: nat)
    ensures |ClassRowsFrom(p, classes, scores, rank)| == |classes|
    ensures forall i :: 0 <= i < |classes| ==>
      ClassRowsFrom(p, classes, scores, rank)[i]
        == ClassRow(p.filepath.GetOr(Blank), p.country.GetOr(Blank), p.modelVersion.GetOr(Blank),
                    rank + i, SplitTaxonomy(classes[i]), if i < |scores| then scores[i] else Blank)
    decreases |classes|
  {
    if classes != [] {
      var rest := if scores == [] then [] else scores[1..];
      ClassRowsFromAt(p, classes[1..], rest, rank + 1);
      var rows := ClassRowsFrom(p, classes, scores, rank);
      forall i | 1 <= i < |classes|
        ensures rows[i].score == if i < |scores| then scores[i] else Blank
      {
        assert rows[i] == ClassRowsFrom(p, classes[1..], rest, rank + 1)[i - 1];
      }
    }
  }

  /**
    * The classification rows of a prediction: exactly one per class string,
    * in order, ranked 1, 2, ..., with score `i` beside class `i` (`""` when
    * the scores run out), so never more rows than `num_classes`; every row
    * repeats the prediction's filepath, country and model version.
    */
  lemma ClassRowsProperties(p: Prediction)
    ensures |ClassRowsOf(p)| == |Classes(p)| <= SummaryOf(p).numClasses
    ensures forall i :: 0 <= i < |Classes(p)| ==>
      var row := ClassRowsOf(p)[i];
      row.classRank == i + 1
      && row.taxonomy == SplitTaxonomy(Classes(p)[i])
      && row.score == (if i < |Scores(p)| then Scores(p)[i] else Blank)
      && row.filepath == p.filepath.GetOr(Blank)
      && row.country == p.country.GetOr(Blank)
      && row.modelVersion == p.modelVersion.GetOr(Blank)
  {
    ClassRowsFromAt(p, Classes(p), Scores(p), 1);
  }

  /** The detection row for `d`, numbered `index`. */
  function DetectionRowFor(p: Prediction, d: Detection, index: nat): DetectionRow {
    var box := PaddedBox(d);
    DetectionRow(p.filepath.GetOr(Blank), p.country.GetOr(Blank), p.modelVersion.GetOr(Blank),
                 index, d.category.GetOr(Blank), d.detLabel.GetOr(Blank), d.conf.GetOr(Blank),
                 box[0], box[1], box[2], box[3])
  }

  /** The detection rows for `detections`, numbered from `index` on. */
  function DetectionRowsFrom(p: Prediction, detections: seq<Detection>, index: nat): seq<DetectionRow>
    decreases |detections|
  {
    if detections == [] then []
    else [DetectionRowFor(p, detections[0], index)] + DetectionRowsFrom(p, detections[1..], index + 1)
  }

  /** The rows `detections.csv` receives for one prediction. */
  function DetectionRowsOf(p: Prediction): seq<DetectionRow> {
    DetectionRowsFrom(p, Detections(p), 1)
  }

  lemma {:induction false} DetectionRowsFromAt(p: Prediction, detections: seq<Detection>, index: nat)
    ensures |DetectionRowsFrom(p, detections, index)| == |detections|
    ensures forall i :: 0 <= i < |detections| ==>
      DetectionRowsFrom(p, detections, index)[i] == DetectionRowFor(p, detections[i], index + i)
    decreases |detections|
  {
    if detections != [] {
      DetectionRowsFromAt(p, detections[1..], index + 1);
    }
  }

  /**
    * One detection row per detection, in order, numbered 1 to
    * `num_detections`, with the first four bbox values padded by `""`;
    * every row repeats the prediction's filepath, country and model version.
    */
  lemma DetectionRowsProperties(p: Prediction)
    ensures |DetectionRowsOf(p)| == |Detections(p)| == SummaryOf(p).numDetections
    ensures forall i :: 0 <= i < |Detections(p)| ==>
      var row, d := DetectionRowsOf(p)[i], Detections(p)[i];
      row.detectionIndex == i + 1
      && row.category == d.category.GetOr(Blank)
      && row.detLabel == d.detLabel.GetOr(Blank)
      && row.conf == d.conf.GetOr(Blank)
      && [row.bboxX, row.bboxY, row.bboxW, row.bboxH] == PaddedBox(d)[..4]
      && row.filepath == p.filepath.GetOr(Blank)
      && row.country == p.country.GetOr(Blank)
      && row.modelVersion == p.modelVersion.GetOr(Blank)
  {
    DetectionRowsFromAt(p, Detections(p), 1);
  }

  /** The summary rows of a whole document, prediction after prediction. */
  function AllSummaries(preds: seq<Prediction>): seq<SummaryRow> {
    if preds == [] then []
    else AllSummaries(preds[..|preds| - 1]) + [SummaryOf(preds[|preds| - 1])]
  }

  /** `predictions_summary.csv` holds exactly one row per prediction, in input order. */
  lemma {:induction false} AllSummariesAt(preds: seq<Prediction>)
    ensures |AllSummaries(preds)| == |preds|
    ensures forall k :: 0 <= k < |preds| ==> AllSummaries(preds)[k] == SummaryOf(preds[k])
    decreases |preds|
  {
    if preds != [] {
      var init := preds[..|preds| - 1];
      AllSummariesAt(init);
      assert forall k :: 0 <= k < |init| ==> init[k] == preds[k];
    }
  }

  /** The classification rows of a whole document: every prediction's rows, prediction after prediction. */
  function AllClassRows(preds: seq<Prediction>): seq<ClassRow> {
    if preds == [] then []
    else AllClassRows(preds[..|preds| - 1]) + ClassRowsOf(preds[|preds| - 1])
  }

  /** The detection rows of a whole document, prediction after prediction. */
  function AllDetectionRows(preds: seq<Prediction>): seq<DetectionRow> {
    if preds == [] then []
    else AllDetectionRows(preds[..|preds| - 1]) + DetectionRowsOf(preds[|preds| - 1])
  }

  /** The number of class strings over all predictions. */
  function TotalClasses(preds: seq<Prediction>): nat {
    if preds == [] then 0 else TotalClasses(preds[..|preds| - 1]) + |Classes(preds[|preds| - 1])|
  }

  /** `classifications.csv` holds one row per class string of the document. */
  lemma {:induction false} AllClassRowsCount(preds: seq<Prediction>)
    ensures |AllClassRows(preds)| == TotalClasses(preds)
    decreases |preds|
  {
    if preds != [] {
      AllClassRowsCount(preds[..|preds| - 1]);
      ClassRowsProperties(preds[|preds| - 1]);
    }
  }

  /**
    * The body of the prediction loop of `main`: builds the summary row, then
    * the classification rows and the detection rows one by one. Padding the
    * first detection's bbox extends that detection's own list in place, so
    * the detection loop sees the padded list; padding twice is padding once,
    * so its row is unaffected.
    */
  method Flatten(p: Prediction) returns (summary: SummaryRow, classRows: seq<ClassRow>, detectionRows: seq<DetectionRow>)
    ensures summary == SummaryOf(p)
    ensures classRows == ClassRowsOf(p)
    ensures detectionRows == DetectionRowsOf(p)
  {
    var classes := Classes(p);
    var scores := Scores(p);
    var numClasses := if |classes| >= |scores| then |classes| else |scores|;
    var topClass := if |classes| > 0 then Str(classes[0]) else Blank;
    var topScore := if |scores| > 0 then scores[0] else Blank;
    var secondClass := if |classes| > 1 then Str(classes[1]) else Blank;
    var secondScore := if |scores| > 1 then scores[1] else Blank;

    var detections := Detections(p);
    var det0 := if |detections| > 0 then detections[0] else NoDetection;
    var bbox := det0.bbox.GetOr([Blank, Blank, Blank, Blank]);
    bbox := Pad(bbox, 4, Blank);
    if |detections| > 0 && detections[0].bbox.Some? {
      // `bbox +=` extended the very list detections[0] holds
      detections := detections[0 := detections[0].(bbox := Some(bbox))];
    }

    summary := SummaryRow(p.filepath.GetOr(Blank), p.country.GetOr(Blank), p.modelVersion.GetOr(Blank),
                          p.prediction.GetOr(Blank), p.predictionScore.GetOr(Blank), p.predictionSource.GetOr(Blank),
                          topClass, topScore, secondClass, secondScore,
                          numClasses, |detections|,
                          det0.detLabel.GetOr(Blank), det0.conf.GetOr(Blank),
                          bbox[0], bbox[1], bbox[2], bbox[3]);

    classRows := WriteClassRows(p);
    PadIdempotent(det0.bbox.GetOr([Blank, Blank, Blank, Blank]), 4, Blank);
    detectionRows := WriteDetectionRows(p, detections);
  }

  /** The `for i, cls in enumerate(classes)` loop: one row per class string. */
  method WriteClassRows(p: Prediction) returns (classRows: seq<ClassRow>)
    ensures classRows == ClassRowsOf(p)
  {
    var classes, scores := Classes(p), Scores(p);
    ClassRowsFromAt(p, classes, scores, 1);
    classRows := [];
    var i := 0;
    while i < |classes|
      invariant 0 <= i <= |classes|
      invariant classRows == ClassRowsOf(p)[..i]
    {
      var tax := SplitTaxonomy(classes[i]);
      var score := if i < |scores| then scores[i] else Blank;
      classRows := classRows + [ClassRow(p.filepath.GetOr(Blank), p.country.GetOr(Blank), p.modelVersion.GetOr(Blank),
                                         i + 1, tax, score)];
      assert ClassRowsOf(p)[..i + 1] == ClassRowsOf(p)[..i] + [ClassRowsOf(p)[i]];
      i := i + 1;
    }
  }

  /**
    * The `for i, d in enumerate(detections)` loop over the detection list
    * as the summary left it: each element gives the row the untouched
    * element would.
    */
  method WriteDetectionRows(p: Prediction, detections: seq<Detection>) returns (detectionRows: seq<DetectionRow>)
    requires |detections| == |Detections(p)|
    requires forall i :: 0 <= i < |detections| ==>
      DetectionRowFor(p, detections[i], i + 1) == DetectionRowFor(p, Detections(p)[i], i + 1)
    ensures detectionRows == DetectionRowsOf(p)
  {
    DetectionRowsFromAt(p, Detections(p), 1);
    detectionRows := [];
    var j := 0;
    while j < |detections|
      invariant 0 <= j <= |detections|
      invariant detectionRows == DetectionRowsOf(p)[..j]
    {
      var d := detections[j];
      var box := Pad(d.bbox.GetOr([Blank, Blank, Blank, Blank]), 4, Blank);
      detectionRows := detectionRows + [DetectionRow(p.filepath.GetOr(Blank), p.country.GetOr(Blank), p.modelVersion.GetOr(Blank),
                                                     j + 1, d.category.GetOr(Blank), d.detLabel.GetOr(Blank), d.conf.GetOr(Blank),
                                                     box[0], box[1], box[2], box[3])];
      assert DetectionRowsOf(p)[..j + 1] == DetectionRowsOf(p)[..j] + [DetectionRowsOf(p)[j]];
      j := j + 1;
    }
  }

  /**
    * The `for pred in data.get("predictions", [])` loop of `main`: the
    * three writers receive the predictions' rows in input order.
    */
  method Convert(data: Document) returns (summaries: seq<SummaryRow>, classRows: seq<ClassRow>, detectionRows: seq<DetectionRow>)
    ensures summaries == AllSummaries(Predictions(data))
    ensures classRows == AllClassRows(Predictions(data))
    ensures detectionRows == AllDetectionRows(Predictions(data))
  {
    var preds := Predictions(data);
    summaries, classRows, detectionRows := [], [], [];
    var k := 0;
    while k < |preds|
      invariant 0 <= k <= |preds|
      invariant summaries == AllSummaries(preds[..k])
      invariant classRows == AllClassRows(preds[..k])
      invariant detectionRows == AllDetectionRows(preds[..k])
    {
      var summary, cls, dets := Flatten(preds[k]);
      summaries := summaries + [summary];
      classRows := classRows + cls;
      detectionRows := detectionRows + dets;
      ghost var next := preds[..k + 1];
      assert next[..|next| - 1] == preds[..k] && next[|next| - 1] == preds[k];
      k := k + 1;
    }
    assert preds[..k] == preds;
  }
}
