/**
  * The JSON to SQLite loader: every prediction record becomes one row of
  * `images`, whose generated id every row it then adds to `classifications`
  * and `detections` carries. The database is an in-memory model of the three
  * tables (see Database); a column value is a `Scalar`, with `Null` standing
  * for SQL NULL, which is what Python's `None` becomes.
  */
module JsonToSqlite {
  import opened Wrappers
  import opened Text
  import opened Json

  /** `parse_tax_string`: the `;`-split, padded with `None` to seven and cut to seven. */
  function ParseTaxString(s: string): (r: seq<Option<string>>)
    ensures |r| == 7
  {
    var parts := Split(s, ';');
    var wrapped := seq(|parts|, i requires 0 <= i < |parts| => Some(parts[i]));
    Pad(wrapped, 7, None)[..7]
  }

  /**
    * `parse_tax_string` gives exactly seven components, component `j` being
    * segment `j` of the split when there is one and `None` otherwise;
    * segments from the eighth on are dropped.
    */
  lemma ParseTaxStringComponents(s: string)
    ensures var segments := Split(s, ';');
            forall j :: 0 <= j < 7 ==> ParseTaxString(s)[j] == if j < |segments| then Some(segments[j]) else None
  {
  }

  const NoTaxonomy: seq<Option<string>> := [None, None, None, None, None, None, None]

  /** A row of `images`, in the column order of its INSERT; `created_at` is not modelled. */
  datatype ImageRecord = ImageRecord(
    id: int, filepath: Scalar, country: Scalar, prediction: Scalar,
    predictionScore: Scalar, predictionSource: Scalar, modelVersion: Scalar)

  /** A row of `classifications`; its own surrogate key and `created_at` are not modelled. */
  datatype ClassificationRecord = ClassificationRecord(
    imageId: int,
    classUuid: Option<string>, taxClass: Option<string>, taxOrder: Option<string>,
    taxFamily: Option<string>, taxGenus: Option<string>, taxSpecies: Option<string>,
    commonName: Option<string>,
    score: Scalar, rankInteger: nat)
  {
    /** The seven taxonomy columns, `class_uuid` to `common_name`. */
    function Taxonomy(): seq<Option<string>> {
      [classUuid, taxClass, taxOrder, taxFamily, taxGenus, taxSpecies, commonName]
    }
  }

  /** A row of `detections`; its own surrogate key and `created_at` are not modelled. */
  datatype DetectionRecord = DetectionRecord(
    imageId: int, category: Scalar, detLabel: Scalar, conf: Scalar,
    bboxX: Scalar, bboxY: Scalar, bboxW: Scalar, bboxH: Scalar)

  /** The `images` row for `p` under id `id`: `pred.get(key)` for each column. */
  function ImageRecordOf(id: int, p: Prediction): ImageRecord {
    ImageRecord(id, p.filepath.GetOr(Null), p.country.GetOr(Null), p.prediction.GetOr(Null),
                p.predictionScore.GetOr(Null), p.predictionSource.GetOr(Null), p.modelVersion.GetOr(Null))
  }

  /** The `filepath` column is declared NOT NULL, so only a prediction with a filepath can be stored. */
  predicate Storable(p: Prediction) {
    p.filepath.GetOr(Null) != Null
  }

  /** A classification row: the class string is parsed only when present and non-empty (`if class_str:`). */
  function ClassificationRecordFor(imageId: int, classStr: Option<string>, score: Scalar, rank: nat): ClassificationRecord {
    var tax := if classStr.Some? && classStr.value != "" then ParseTaxString(classStr.value) else NoTaxonomy;
    ClassificationRecord(imageId, tax[0], tax[1], tax[2], tax[3], tax[4], tax[5], tax[6], score, rank)
  }

  /** `classes[i] if i < len(classes) else None` */
  function ClassAt(classes: seq<string>, i: nat): Option<string> {
    if i < |classes| then Some(classes[i]) else None
  }

  /** `scores[i] if i < len(scores) else None` */
  function ScoreAt(scores: seq<Scalar>, i: nat): Scalar {
    if i < |scores| then scores[i] else Null
  }

  /** The rows the first `n` rounds of `for i in range(n)` insert. */
  function ClassificationRecordsUpTo(imageId: int, classes: seq<string>, scores: seq<Scalar>, n: nat): seq<ClassificationRecord>
    decreases n
  {
    if n == 0 then []
    else ClassificationRecordsUpTo(imageId, classes, scores, n - 1)
         + [ClassificationRecordFor(imageId, ClassAt(classes, n - 1), ScoreAt(scores, n - 1), n - 1)]
  }

  /** The rows `insert_image_and_relations` adds to `classifications` for `p` under image id `imageId`. */
  function ClassificationRecordsOf(imageId: int, p: Prediction): seq<ClassificationRecord> {
    ClassificationRecordsUpTo(imageId, Classes(p), Scores(p), Max(|Classes(p)|, |Scores(p)|))
  }

  /** Round `i` of the loop inserts the `i`-th row, built from position `i` of classes and of scores. */
  lemma {:induction false} ClassificationRecordsUpToAt(imageId: int, classes: seq<string>, scores: seq<Scalar>, n: nat)
    ensures |ClassificationRecordsUpTo(imageId, classes, scores, n)| == n
    ensures forall i :: 0 <= i < n ==>
      ClassificationRecordsUpTo(imageId, classes, scores, n)[i]
        == ClassificationRecordFor(imageId, ClassAt(classes, i), ScoreAt(scores, i), i)
    decreases n
  {
    if n > 0 {
      ClassificationRecordsUpToAt(imageId, classes, scores, n - 1);
    }
  }

  /**
    * One image's classification rows: `max(len(classes), len(scores))` of
    * them, all carrying the image id, ranked 0 to n-1 in input order, the
    * score `None` where the scores run out, the seven taxonomy columns
    * parsed from the class string or all `None` where it is missing or
    * empty.
    */
  lemma ClassificationRecordsProperties(imageId: int, p: Prediction)
    ensures |ClassificationRecordsOf(imageId, p)| == Max(|Classes(p)|, |Scores(p)|)
    ensures forall i :: 0 <= i < |ClassificationRecordsOf(imageId, p)| ==>
      var c := ClassificationRecordsOf(imageId, p)[i];
      c.imageId == imageId
      && c.rankInteger == i
      && c.score == (if i < |Scores(p)| then Scores(p)[i] else Null)
      && c.Taxonomy() == (if i < |Classes(p)| && Classes(p)[i] != "" then ParseTaxString(Classes(p)[i]) else NoTaxonomy)
  {
    var classes, scores := Classes(p), Scores(p);
    var n := Max(|classes|, |scores|);
    ClassificationRecordsUpToAt(imageId, classes, scores, n);
    forall i | 0 <= i < n
      ensures var c := ClassificationRecordsOf(imageId, p)[i];
        c.imageId == imageId && c.rankInteger == i && c.score == ScoreAt(scores, i)
        && c.Taxonomy() == (if i < |classes| && classes[i] != "" then ParseTaxString(classes[i]) else NoTaxonomy)
    {
      RecordForColumns(imageId, ClassAt(classes, i), ScoreAt(scores, i), i);
    }
  }

  /** A classification row carries its arguments, and its taxonomy columns are the parsed class string or all `None`. */
  lemma RecordForColumns(imageId: int, classStr: Option<string>, score: Scalar, rank: nat)
    ensures var c := ClassificationRecordFor(imageId, classStr, score, rank);
      c.imageId == imageId && c.rankInteger == rank && c.score == score
      && c.Taxonomy() == if classStr.Some? && classStr.value != "" then ParseTaxString(classStr.value) else NoTaxonomy
  {
    var tax := if classStr.Some? && classStr.value != "" then ParseTaxString(classStr.value) else NoTaxonomy;
    assert tax == [tax[0], tax[1], tax[2], tax[3], tax[4], tax[5], tax[6]];
  }

  /** `x, y, w, h = (bbox + [None] * 4)[:4]` with `bbox = d.get("bbox", [None] * 4)`. */
  function BoxColumns(d: Detection): (box: seq<Scalar>)
    ensures |box| == 4
  {
    (d.bbox.GetOr([Null, Null, Null, Null]) + [Null, Null, Null, Null])[..4]
  }

  /** The bbox is padded with `None` to four and cut to its first four; a missing bbox gives four `None`. */
  lemma BoxColumnsValues(d: Detection)
    ensures forall k :: 0 <= k < 4 ==>
      BoxColumns(d)[k] == match d.bbox
                          case None => Null
                          case Some(b) => if k < |b| then b[k] else Null
  {
  }

  function DetectionRecordFor(imageId: int, d: Detection): DetectionRecord {
    var box := BoxColumns(d);
    DetectionRecord(imageId, d.category.GetOr(Null), d.detLabel.GetOr(Null), d.conf.GetOr(Null),
                    box[0], box[1], box[2], box[3])
  }

  /** The detection rows for `detections`, in order. */
  function DetectionRecordsFrom(imageId: int, detections: seq<Detection>): seq<DetectionRecord> {
    if detections == [] then []
    else [DetectionRecordFor(imageId, detections[0])] + DetectionRecordsFrom(imageId, detections[1..])
  }

  /** The rows `insert_image_and_relations` adds to `detections` for `p` under image id `imageId`. */
  function DetectionRecordsOf(imageId: int, p: Prediction): seq<DetectionRecord> {
    DetectionRecordsFrom(imageId, Detections(p))
  }

  /** One row per detection, in order, each under the image id, the bbox padded with `None` and cut to four. */
  lemma {:induction false} DetectionRecordsFromAt(imageId: int, detections: seq<Detection>)
    ensures |DetectionRecordsFrom(imageId, detections)| == |detections|
    ensures forall i :: 0 <= i < |detections| ==>
      DetectionRecordsFrom(imageId, detections)[i] == DetectionRecordFor(imageId, detections[i])
    decreases |detections|
  {
    if detections != [] {
      DetectionRecordsFromAt(imageId, detections[1..]);
    }
  }

  /**
    * The rows of one table stored for `preds`, one prediction after the
    * other, the predictions taking ids `first`, `first + 1`, ...;
    * `rowsOf(id, p)` is what storing `p` under `id` adds to that table.
    */
  function StoredRows<T>(rowsOf: (int, Prediction) -> seq<T>, first: int, preds: seq<Prediction>): seq<T>
    decreases |preds|
  {
    if preds == [] then []
    else StoredRows(rowsOf, first, preds[..|preds| - 1]) + rowsOf(first + |preds| - 1, preds[|preds| - 1])
  }

  /** Storing prediction `i` after the ones before it appends its own rows under id `first + i`. */
  lemma StoredRowsStep<T>(rowsOf: (int, Prediction) -> seq<T>, first: int, preds: seq<Prediction>, i: nat)
    requires i < |preds|
    ensures StoredRows(rowsOf, first, preds[..i + 1]) == StoredRows(rowsOf, first, preds[..i]) + rowsOf(first + i, preds[i])
  {
    var next := preds[..i + 1];
    assert next[..|next| - 1] == preds[..i] && next[|next| - 1] == preds[i];
  }

  /** A table holding `base` and the rows of the predictions before `i`, once prediction `i`'s rows are added. */
  lemma StoredRowsExtend<T>(rowsOf: (int, Prediction) -> seq<T>, first: int, preds: seq<Prediction>, i: nat,
                            base: seq<T>, current: seq<T>, next: seq<T>)
    requires i < |preds|
    requires current == base + StoredRows(rowsOf, first, preds[..i])
    requires next == current + rowsOf(first + i, preds[i])
    ensures next == base + StoredRows(rowsOf, first, preds[..i + 1])
  {
    StoredRowsStep(rowsOf, first, preds, i);
    assert base + StoredRows(rowsOf, first, preds[..i]) + rowsOf(first + i, preds[i])
        == base + (StoredRows(rowsOf, first, preds[..i]) + rowsOf(first + i, preds[i]));
  }

  /** Storing `a + b` is storing `a`, then `b` under the ids that follow. */
  lemma {:induction false} StoredRowsAppend<T>(rowsOf: (int, Prediction) -> seq<T>, first: int, a: seq<Prediction>, b: seq<Prediction>)
    ensures StoredRows(rowsOf, first, a + b) == StoredRows(rowsOf, first, a) + StoredRows(rowsOf, first + |a|, b)
    decreases |b|
  {
    if b == [] {
      assert a + b == a;
    } else {
      var init := b[..|b| - 1];
      StoredRowsAppend(rowsOf, first, a, init);
      var ab := a + b;
      assert ab[..|ab| - 1] == a + init && ab[|ab| - 1] == b[|b| - 1];
    }
  }

  /** A table holding `base` and the rows of `done`, once the rows of `more` are added under the ids that follow. */
  lemma StoredRowsConcat<T>(rowsOf: (int, Prediction) -> seq<T>, first: int, done: seq<Prediction>, more: seq<Prediction>,
                            base: seq<T>, current: seq<T>, next: seq<T>)
    requires current == base + StoredRows(rowsOf, first, done)
    requires next == current + StoredRows(rowsOf, first + |done|, more)
    ensures next == base + StoredRows(rowsOf, first, done + more)
  {
    StoredRowsAppend(rowsOf, first, done, more);
    assert base + StoredRows(rowsOf, first, done) + StoredRows(rowsOf, first + |done|, more)
        == base + (StoredRows(rowsOf, first, done) + StoredRows(rowsOf, first + |done|, more));
  }

  /** What storing `p` under `id` adds to `images`. */
  function ImageRowsOf(id: int, p: Prediction): seq<ImageRecord> {
    [ImageRecordOf(id, p)]
  }

  function ImageRowsOfAll(first: int, preds: seq<Prediction>): seq<ImageRecord> {
    StoredRows(ImageRowsOf, first, preds)
  }

  function ClassificationRowsOfAll(first: int, preds: seq<Prediction>): seq<ClassificationRecord> {
    StoredRows(ClassificationRecordsOf, first, preds)
  }

  function DetectionRowsOfAll(first: int, preds: seq<Prediction>): seq<DetectionRecord> {
    StoredRows(DetectionRecordsOf, first, preds)
  }

  /** Storing several predictions: one image row per prediction, in order, with consecutive ids from `first`. */
  lemma {:induction false} StoredImages(first: int, preds: seq<Prediction>)
    ensures |ImageRowsOfAll(first, preds)| == |preds|
    ensures forall k :: 0 <= k < |preds| ==> ImageRowsOfAll(first, preds)[k] == ImageRecordOf(first + k, preds[k])
    decreases |preds|
  {
    if preds != [] {
      var init := preds[..|preds| - 1];
      StoredImages(first, init);
      assert forall k :: 0 <= k < |init| ==> init[k] == preds[k];
    }
  }

  /** Every child row of one stored prediction carries that prediction's image id. */
  lemma ChildrenOfOne(id: int, p: Prediction)
    ensures forall c :: c in ClassificationRecordsOf(id, p) ==> c.imageId == id
    ensures forall d :: d in DetectionRecordsOf(id, p) ==> d.imageId == id
  {
    ClassificationRecordsProperties(id, p);
    forall c | c in ClassificationRecordsOf(id, p) ensures c.imageId == id {
      var i :| 0 <= i < |ClassificationRecordsOf(id, p)| && ClassificationRecordsOf(id, p)[i] == c;
    }
    DetectionRecordsFromAt(id, Detections(p));
    forall d | d in DetectionRecordsOf(id, p) ensures d.imageId == id {
      var i :| 0 <= i < |DetectionRecordsOf(id, p)| && DetectionRecordsOf(id, p)[i] == d;
    }
  }

  /** Every classification and detection row stored for `preds` refers to one of their images' ids. */
  lemma {:induction false} StoredChildren(first: int, preds: seq<Prediction>)
    ensures forall c :: c in ClassificationRowsOfAll(first, preds) ==> first <= c.imageId < first + |preds|
    ensures forall d :: d in DetectionRowsOfAll(first, preds) ==> first <= d.imageId < first + |preds|
    decreases |preds|
  {
    if preds != [] {
      var init := preds[..|preds| - 1];
      StoredChildren(first, init);
      ChildrenOfOne(first + |init|, preds[|preds| - 1]);
    }
  }

  /**
    * How many leading predictions get stored: the loop of `process_file`
    * raises at the first prediction without filepath.
    */
  function StorablePrefix(preds: seq<Prediction>): (k: nat)
    ensures k <= |preds|
  {
    if preds == [] || !Storable(preds[0]) then 0 else 1 + StorablePrefix(preds[1..])
  }

  /** The storable prefix is storable throughout and, when it is not everything, stops at an unstorable prediction. */
  lemma {:induction false} StorablePrefixSpec(preds: seq<Prediction>)
    ensures var k := StorablePrefix(preds);
            (forall j :: 0 <= j < k ==> Storable(preds[j])) && (k < |preds| ==> !Storable(preds[k]))
    decreases |preds|
  {
    if preds != [] && Storable(preds[0]) {
      StorablePrefixSpec(preds[1..]);
      forall j | 1 <= j < StorablePrefix(preds)
        ensures Storable(preds[j])
      {
        assert preds[j] == preds[1..][j - 1];
      }
    }
  }

  /** The length of the storable prefix is determined by where the first unstorable prediction sits. */
  lemma {:induction false} StorablePrefixIs(preds: seq<Prediction>, k: nat)
    requires k <= |preds|
    requires forall j :: 0 <= j < k ==> Storable(preds[j])
    requires k < |preds| ==> !Storable(preds[k])
    ensures StorablePrefix(preds) == k
    decreases k
  {
    if k > 0 {
      forall j | 0 <= j < k - 1
        ensures Storable(preds[1..][j])
      {
        assert preds[1..][j] == preds[j + 1];
      }
      StorablePrefixIs(preds[1..], k - 1);
    }
  }

  /**
    * The tables of the database as the script sees them. `nextId` is the id
    * `INTEGER PRIMARY KEY AUTOINCREMENT` gives the next `images` row: ids
    * only grow, so a new id is above every id handed out before.
    */
  class Database {
    var images: seq<ImageRecord>
    var classifications: seq<ClassificationRecord>
    var detections: seq<DetectionRecord>
    var nextId: int

    ghost function ImageIds(): set<int>
      reads this`images
    {
      set r | r in images :: r.id
    }

    /** Image ids increase in insertion order and stay below `nextId`. */
    ghost predicate Valid()
      reads this`images, this`nextId
    {
      1 <= nextId
      && (forall k :: 0 <= k < |images| ==> images[k].id < nextId)
      && (forall k, l :: 0 <= k < l < |images| ==> images[k].id < images[l].id)
    }

    /** A newly created database file: empty tables, ids starting at 1. */
    constructor ()
      ensures Valid()
      ensures images == [] && classifications == [] && detections == [] && nextId == 1
    {
      images, classifications, detections := [], [], [];
      nextId := 1;
    }

    /**
      * `INSERT INTO images ...` followed by `cur.lastrowid`. A missing
      * filepath violates NOT NULL: the statement fails (`None`) and changes
      * nothing.
      */
    method InsertImage(filepath: Scalar, country: Scalar, prediction: Scalar,
                       predictionScore: Scalar, predictionSource: Scalar, modelVersion: Scalar)
      returns (id: Option<int>)
      requires Valid()
      modifies this
      ensures Valid()
      ensures classifications == old(classifications) && detections == old(detections)
      ensures filepath == Null ==> id == None && images == old(images) && nextId == old(nextId)
      ensures filepath != Null ==>
        id == Some(old(nextId))
        && (forall k :: 0 <= k < |old(images)| ==> old(images)[k].id < id.value)
        && images == old(images) + [ImageRecord(id.value, filepath, country, prediction, predictionScore, predictionSource, modelVersion)]
        && nextId == old(nextId) + 1
    {
      if filepath == Null {
        return None;
      }
      var row := ImageRecord(nextId, filepath, country, prediction, predictionScore, predictionSource, modelVersion);
      images := images + [row];
      id := Some(nextId);
      nextId := nextId + 1;
    }

    /** `INSERT INTO classifications ...`; the foreign key demands that the image exists. */
    method InsertClassification(c: ClassificationRecord)
      requires c.imageId in ImageIds()
      modifies this`classifications
      ensures classifications == old(classifications) + [c]
    {
      classifications := classifications + [c];
    }

    /** `INSERT INTO detections ...`; the foreign key demands that the image exists. */
    method InsertDetection(d: DetectionRecord)
      requires d.imageId in ImageIds()
      modifies this`detections
      ensures detections == old(detections) + [d]
    {
      detections := detections + [d];
    }
  }

  /** The outcome of a statement sequence: its value, or the IntegrityError that a NOT NULL violation raises. */
  datatype Outcome<T> = Done(value: T) | IntegrityError

  /**
    * `insert_image_and_relations`: the `images` row first, then under its
    * fresh id one classification row per position of the longer of
    * classes and scores, then one detection row per detection. It returns
    * the image's id. A prediction without filepath raises at the first
    * INSERT and stores nothing.
    */
  method InsertImageAndRelations(db: Database, p: Prediction) returns (r: Outcome<int>)
    requires db.Valid()
    modifies db
    ensures db.Valid()
    ensures !Storable(p) ==>
      r == IntegrityError && db.images == old(db.images) && db.nextId == old(db.nextId)
      && db.classifications == old(db.classifications) && db.detections == old(db.detections)
    ensures Storable(p) ==>
      r == Done(old(db.nextId))
      && (forall k :: 0 <= k < |old(db.images)| ==> old(db.images)[k].id < r.value)
      && db.images == old(db.images) + [ImageRecordOf(r.value, p)]
      && db.nextId == old(db.nextId) + 1
      && db.classifications == old(db.classifications) + ClassificationRecordsOf(r.value, p)
      && db.detections == old(db.detections) + DetectionRecordsOf(r.value, p)
  {
    var inserted := db.InsertImage(p.filepath.GetOr(Null), p.country.GetOr(Null), p.prediction.GetOr(Null),
                                   p.predictionScore.GetOr(Null), p.predictionSource.GetOr(Null), p.modelVersion.GetOr(Null));
    if inserted.None? {
      return IntegrityError;
    }
    var imageId := inserted.value;
    assert imageId in db.ImageIds() by {
      assert db.images[|db.images| - 1].id == imageId;
    }
    InsertClassifications(db, imageId, p);
    InsertDetections(db, imageId, p);
    r := Done(imageId);
  }

  /** The `for i in range(n)` loop of `insert_image_and_relations`. */
  method InsertClassifications(db: Database, imageId: int, p: Prediction)
    requires imageId in db.ImageIds()
    modifies db`classifications
    ensures db.classifications == old(db.classifications) + ClassificationRecordsOf(imageId, p)
  {
    var classes, scores := Classes(p), Scores(p);
    var n := if |classes| >= |scores| then |classes| else |scores|;
    var i := 0;
    while i < n
      invariant 0 <= i <= n
      invariant db.classifications == old(db.classifications) + ClassificationRecordsUpTo(imageId, classes, scores, i)
    {
      var classStr := if i < |classes| then Some(classes[i]) else None;
      var score := if i < |scores| then scores[i] else Null;
      db.InsertClassification(ClassificationRecordFor(imageId, classStr, score, i));
      i := i + 1;
    }
  }

  /** The `for d in detections` loop of `insert_image_and_relations`. */
  method InsertDetections(db: Database, imageId: int, p: Prediction)
    requires imageId in db.ImageIds()
    modifies db`detections
    ensures db.detections == old(db.detections) + DetectionRecordsOf(imageId, p)
  {
    var detections := Detections(p);
    ghost var rows := DetectionRecordsOf(imageId, p);
    DetectionRecordsFromAt(imageId, detections);
    var j := 0;
    while j < |detections|
      invariant 0 <= j <= |detections|
      invariant db.detections == old(db.detections) + rows[..j]
    {
      var d := detections[j];
      var box := (d.bbox.GetOr([Null, Null, Null, Null]) + [Null, Null, Null, Null])[..4];
      db.InsertDetection(DetectionRecord(imageId, d.category.GetOr(Null), d.detLabel.GetOr(Null), d.conf.GetOr(Null),
                                         box[0], box[1], box[2], box[3]));
      assert rows[..j + 1] == rows[..j] + [rows[j]];
      j := j + 1;
    }
    assert rows[..|detections|] == rows;
  }

  /**
    * One pass of the loop of `process_file`: `insert_image_and_relations`
    * on prediction `i`, the rows of the predictions before it having been
    * stored after `images0`, `classifications0` and `detections0`.
    */
  method StoreNext(db: Database, ghost images0: seq<ImageRecord>, ghost classifications0: seq<ClassificationRecord>,
                   ghost detections0: seq<DetectionRecord>, ghost first: int, preds: seq<Prediction>, i: nat)
    returns (ok: bool)
    requires i < |preds| && db.Valid() && db.nextId == first + i
    requires db.images == images0 + ImageRowsOfAll(first, preds[..i])
    requires db.classifications == classifications0 + ClassificationRowsOfAll(first, preds[..i])
    requires db.detections == detections0 + DetectionRowsOfAll(first, preds[..i])
    modifies db
    ensures db.Valid()
    ensures ok == Storable(preds[i])
    ensures !ok ==>
      db.nextId == old(db.nextId) && db.images == old(db.images)
      && db.classifications == old(db.classifications) && db.detections == old(db.detections)
    ensures ok ==>
      db.nextId == first + i + 1
      && db.images == images0 + ImageRowsOfAll(first, preds[..i + 1])
      && db.classifications == classifications0 + ClassificationRowsOfAll(first, preds[..i + 1])
      && db.detections == detections0 + DetectionRowsOfAll(first, preds[..i + 1])
  {
    ghost var images1, classifications1, detections1 := db.images, db.classifications, db.detections;
    var res := InsertImageAndRelations(db, preds[i]);
    ok := res.Done?;
    if ok {
      StoredRowsExtend(ImageRowsOf, first, preds, i, images0, images1, db.images);
      StoredRowsExtend(ClassificationRecordsOf, first, preds, i, classifications0, classifications1, db.classifications);
      StoredRowsExtend(DetectionRecordsOf, first, preds, i, detections0, detections1, db.detections);
    }
  }

  /**
    * `process_file` after `json.load`: one `insert_image_and_relations` per
    * prediction, in order, counting the inserted ones, then `commit`. With
    * a filepath on every prediction it returns `len(predictions)`;
    * otherwise the IntegrityError of the first prediction without one ends
    * the loop, after the ones before it were stored.
    */
  method ProcessFile(db: Database, doc: Document) returns (r: Outcome<nat>)
    requires db.Valid()
    modifies db
    ensures db.Valid()
    ensures var preds := Predictions(doc);
            var k := StorablePrefix(preds);
            r == (if k == |preds| then Done(|preds|) else IntegrityError)
            && db.nextId == old(db.nextId) + k
            && db.images == old(db.images) + ImageRowsOfAll(old(db.nextId), preds[..k])
            && db.classifications == old(db.classifications) + ClassificationRowsOfAll(old(db.nextId), preds[..k])
            && db.detections == old(db.detections) + DetectionRowsOfAll(old(db.nextId), preds[..k])
  {
    var preds := Predictions(doc);
    ghost var images0, classifications0, detections0, first := db.images, db.classifications, db.detections, db.nextId;
    var inserted: nat := 0;
    var i := 0;
    assert preds[..0] == [];
    while i < |preds|
      invariant 0 <= i <= |preds| && inserted == i
      invariant forall j :: 0 <= j < i ==> Storable(preds[j])
      invariant db.Valid() && db.nextId == first + i
      invariant db.images == images0 + ImageRowsOfAll(first, preds[..i])
      invariant db.classifications == classifications0 + ClassificationRowsOfAll(first, preds[..i])
      invariant db.detections == detections0 + DetectionRowsOfAll(first, preds[..i])
    {
      var ok := StoreNext(db, images0, classifications0, detections0, first, preds, i);
      if !ok {
        StorablePrefixIs(preds, i);
        return IntegrityError;
      }
      inserted := inserted + 1;
      i := i + 1;
    }
    // conn.commit()
    StorablePrefixIs(preds, i);
    assert preds[..i] == preds;
    r := Done(inserted);
  }

  /** A command-line argument: a path that is not a regular file, or the parsed contents of a JSON file. */
  datatype InputFile = NotAFile | JsonFile(doc: Document)

  /** How `main` ends: the usage message and exit status 1, the final total, or an IntegrityError escaping `process_file`. */
  datatype LoadResult = Usage | Finished(total: nat) | Raised

  function PredictionsOfFile(f: InputFile): seq<Prediction> {
    match f
    case NotAFile => []
    case JsonFile(doc) => Predictions(doc)
  }

  /** The predictions of the arguments in order; a path that is not a file contributes none. */
  function FilePredictions(files: seq<InputFile>): seq<Prediction> {
    ConcatMap(PredictionsOfFile, files)
  }

  /** `total`: the sum of the counts `process_file` returns, a skipped path counting nothing. */
  function Total(files: seq<InputFile>): nat
    decreases |files|
  {
    if files == [] then 0 else Total(files[..|files| - 1]) + |PredictionsOfFile(files[|files| - 1])|
  }

  /** The total `main` prints counts exactly the predictions of the files it read. */
  lemma {:induction false} TotalCountsPredictions(files: seq<InputFile>)
    ensures Total(files) == |FilePredictions(files)|
    decreases |files|
  {
    if files != [] {
      TotalCountsPredictions(files[..|files| - 1]);
    }
  }

  lemma FilePredictionsStep(files: seq<InputFile>, j: nat)
    requires j < |files|
    ensures FilePredictions(files[..j + 1]) == FilePredictions(files[..j]) + PredictionsOfFile(files[j])
    ensures Total(files[..j + 1]) == Total(files[..j]) + |PredictionsOfFile(files[j])|
  {
    ConcatMapStep(PredictionsOfFile, files, j);
    var next := files[..j + 1];
    assert next[..|next| - 1] == files[..j] && next[|next| - 1] == files[j];
  }

  /**
    * When the predictions `done` were all stored and then `p` raises after
    * storing its first `k`, whatever follows, exactly the storable prefix
    * of all the predictions was stored.
    */
  lemma {:induction false} RaisedPrefix(done: seq<Prediction>, p: seq<Prediction>, rest: seq<Prediction>, k: nat)
    requires forall m :: 0 <= m < |done| ==> Storable(done[m])
    requires k == StorablePrefix(p) < |p|
    ensures StorablePrefix(done + p + rest) == |done| + k < |done + p + rest|
    ensures (done + p + rest)[..|done| + k] == done + p[..k]
  {
    var all := done + p + rest;
    StorablePrefixSpec(p);
    forall m | 0 <= m < |done| + k
      ensures Storable(all[m])
    {
      if m >= |done| {
        assert all[m] == p[m - |done|];
      }
    }
    assert all[|done| + k] == p[k];
    StorablePrefixIs(all, |done| + k);
    assert all[..|done| + k] == done + p[..k];
  }

  /** The files after `j` hold the predictions that follow those of the first `j + 1`. */
  lemma FilePredictionsSplit(files: seq<InputFile>, j: nat)
    requires j < |files|
    ensures FilePredictions(files) == FilePredictions(files[..j]) + PredictionsOfFile(files[j]) + FilePredictions(files[j + 1..])
  {
    FilePredictionsStep(files, j);
    ConcatMapAppend(PredictionsOfFile, files[..j + 1], files[j + 1..]);
    assert files[..j + 1] + files[j + 1..] == files;
  }

  /** Predictions stored in full after predictions stored in full: all of them were storable. */
  lemma StorableAppend(done: seq<Prediction>, p: seq<Prediction>)
    requires forall m :: 0 <= m < |done| ==> Storable(done[m])
    requires StorablePrefix(p) == |p|
    ensures forall m :: 0 <= m < |done + p| ==> Storable((done + p)[m])
  {
    StorablePrefixSpec(p);
    forall m | |done| <= m < |done + p|
      ensures Storable((done + p)[m])
    {
      assert (done + p)[m] == p[m - |done|];
    }
  }

  /**
    * `process_file` on one JSON file of the loop of `main`, the
    * predictions `done` of the files before it having been stored after
    * `images0`, `classifications0` and `detections0`.
    */
  method LoadFile(db: Database, ghost images0: seq<ImageRecord>, ghost classifications0: seq<ClassificationRecord>,
                  ghost detections0: seq<DetectionRecord>, ghost first: int, ghost done: seq<Prediction>, doc: Document)
    returns (n: Outcome<nat>)
    requires db.Valid() && db.nextId == first + |done|
    requires db.images == images0 + ImageRowsOfAll(first, done)
    requires db.classifications == classifications0 + ClassificationRowsOfAll(first, done)
    requires db.detections == detections0 + DetectionRowsOfAll(first, done)
    modifies db
    ensures db.Valid()
    ensures var p := Predictions(doc);
            var k := StorablePrefix(p);
            n == (if k == |p| then Done(|p|) else IntegrityError)
            && db.nextId == first + |done| + k
            && db.images == images0 + ImageRowsOfAll(first, done + p[..k])
            && db.classifications == classifications0 + ClassificationRowsOfAll(first, done + p[..k])
            && db.detections == detections0 + DetectionRowsOfAll(first, done + p[..k])
  {
    ghost var p := Predictions(doc);
    ghost var images1, classifications1, detections1 := db.images, db.classifications, db.detections;
    n := ProcessFile(db, doc);
    ghost var k := StorablePrefix(p);
    StoredRowsConcat(ImageRowsOf, first, done, p[..k], images0, images1, db.images);
    StoredRowsConcat(ClassificationRecordsOf, first, done, p[..k], classifications0, classifications1, db.classifications);
    StoredRowsConcat(DetectionRecordsOf, first, done, p[..k], detections0, detections1, db.detections);
  }

  /**
    * One argument of the loop of `main`, the predictions of the arguments
    * before it having been stored after `images0`, `classifications0` and
    * `detections0`: a path that is not a file is skipped, a JSON file goes
    * through `process_file`.
    */
  method LoadNext(db: Database, ghost images0: seq<ImageRecord>, ghost classifications0: seq<ClassificationRecord>,
                  ghost detections0: seq<DetectionRecord>, ghost first: int, files: seq<InputFile>, j: nat)
    returns (n: Outcome<nat>)
    requires j < |files|
    requires var done := FilePredictions(files[..j]);
      (forall m :: 0 <= m < |done| ==> Storable(done[m]))
      && db.Valid() && db.nextId == first + |done|
      && db.images == images0 + ImageRowsOfAll(first, done)
      && db.classifications == classifications0 + ClassificationRowsOfAll(first, done)
      && db.detections == detections0 + DetectionRowsOfAll(first, done)
    modifies db
    ensures db.Valid()
    ensures n.Done? ==>
      var done := FilePredictions(files[..j + 1]);
      n.value == |PredictionsOfFile(files[j])|
      && (forall m :: 0 <= m < |done| ==> Storable(done[m]))
      && db.nextId == first + |done|
      && db.images == images0 + ImageRowsOfAll(first, done)
      && db.classifications == classifications0 + ClassificationRowsOfAll(first, done)
      && db.detections == detections0 + DetectionRowsOfAll(first, done)
    ensures n.IntegrityError? ==>
      var preds := FilePredictions(files);
      var k := StorablePrefix(preds);
      k < |preds|
      && db.nextId == first + k
      && db.images == images0 + ImageRowsOfAll(first, preds[..k])
      && db.classifications == classifications0 + ClassificationRowsOfAll(first, preds[..k])
      && db.detections == detections0 + DetectionRowsOfAll(first, preds[..k])
  {
    ghost var done := FilePredictions(files[..j]);
    FilePredictionsStep(files, j);
    if files[j].NotAFile? {
      // "Archivo no encontrado": the path is skipped
      assert done + [] == done;
      return Done(0);
    }
    ghost var p := Predictions(files[j].doc);
    n := LoadFile(db, images0, classifications0, detections0, first, done, files[j].doc);
    if n.IntegrityError? {
      FilePredictionsSplit(files, j);
      RaisedPrefix(done, p, FilePredictions(files[j + 1..]), StorablePrefix(p));
    } else {
      assert p[..|p|] == p;
      StorableAppend(done, p);
    }
  }

  /**
    * `main`: without arguments, the usage message and exit status 1 before
    * the database is opened. Otherwise the files in argument order: a path
    * that is not a file is reported and skipped, each other file goes
    * through `process_file`, whose count is added to `total`. A prediction
    * without filepath raises out of `main`, after every prediction before
    * it was stored.
    */
  method Load(db: Database, files: seq<InputFile>) returns (r: LoadResult)
    requires db.Valid()
    modifies db
    ensures db.Valid()
    ensures files == [] ==>
      r == Usage && db.nextId == old(db.nextId) && db.images == old(db.images)
      && db.classifications == old(db.classifications) && db.detections == old(db.detections)
    ensures files != [] ==>
      var preds := FilePredictions(files);
      var k := StorablePrefix(preds);
      r == (if k == |preds| then Finished(Total(files)) else Raised)
      && db.nextId == old(db.nextId) + k
      && db.images == old(db.images) + ImageRowsOfAll(old(db.nextId), preds[..k])
      && db.classifications == old(db.classifications) + ClassificationRowsOfAll(old(db.nextId), preds[..k])
      && db.detections == old(db.detections) + DetectionRowsOfAll(old(db.nextId), preds[..k])
  {
    if |files| == 0 {
      return Usage;
    }
    ghost var images0, classifications0, detections0, first := db.images, db.classifications, db.detections, db.nextId;
    var total: nat := 0;
    var j := 0;
    assert files[..0] == [];
    while j < |files|
      invariant 0 <= j <= |files| && total == Total(files[..j])
      invariant var done := FilePredictions(files[..j]);
        (forall m :: 0 <= m < |done| ==> Storable(done[m]))
        && db.Valid() && db.nextId == first + |done|
        && db.images == images0 + ImageRowsOfAll(first, done)
        && db.classifications == classifications0 + ClassificationRowsOfAll(first, done)
        && db.detections == detections0 + DetectionRowsOfAll(first, done)
    {
      var n := LoadNext(db, images0, classifications0, detections0, first, files, j);
      if n.IntegrityError? {
        return Raised;
      }
      FilePredictionsStep(files, j);
      total := total + n.value;
      j := j + 1;
    }
    assert files[..j] == files;
    StorablePrefixIs(FilePredictions(files), |FilePredictions(files)|);
    assert FilePredictions(files)[..|FilePredictions(files)|] == FilePredictions(files);
    r := Finished(total);
  }
}
