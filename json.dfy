/**
  * The input contract both converters read: a JSON document whose
  * `predictions` list holds one record per image. A field that may be
  * missing is an `Option`; `Scalar` is a JSON value as `json.load` hands it
  * to Python, with `Null` standing for JSON null, that is Python's `None`.
  */
module Json {
  import opened Wrappers

  /** A scalar: a string, a number (kept as its literal, never interpreted), a boolean or null. */
  datatype Scalar = Str(s: string) | Num(literal: string) | Bool(b: bool) | Null

  /** The empty string `""`, the default the CSV converter writes for a missing value. */
  const Blank: Scalar := Str("")

  /** One element of `detections`; every key may be missing (`detLabel` is the key `label`). */
  datatype Detection = Detection(
    category: Option<Scalar>,
    detLabel: Option<Scalar>,
    conf: Option<Scalar>,
    bbox: Option<seq<Scalar>>)

  /** The `classifications` object: class strings and scores, paired by position. */
  datatype Classifications = Classifications(
    classes: Option<seq<string>>,
    scores: Option<seq<Scalar>>)

  datatype Prediction = Prediction(
    filepath: Option<Scalar>,
    country: Option<Scalar>,
    modelVersion: Option<Scalar>,
    prediction: Option<Scalar>,
    predictionScore: Option<Scalar>,
    predictionSource: Option<Scalar>,
    classifications: Option<Classifications>,
    detections: Option<seq<Detection>>)

  datatype Document = Document(predictions: Option<seq<Prediction>>)

  /** `{}`: the detection record with no keys at all. */
  const NoDetection: Detection := Detection(None, None, None, None)

  /** `pred.get("classifications", {}).get("classes", [])` */
  function Classes(p: Prediction): seq<string> {
    match p.classifications
    case None => []
    case Some(c) => c.classes.GetOr([])
  }

  /** `pred.get("classifications", {}).get("scores", [])` */
  function Scores(p: Prediction): seq<Scalar> {
    match p.classifications
    case None => []
    case Some(c) => c.scores.GetOr([])
  }

  /** `pred.get("detections", [])` */
  function Detections(p: Prediction): seq<Detection> {
    p.detections.GetOr([])
  }

  /** `data.get("predictions", [])` */
  function Predictions(doc: Document): seq<Prediction> {
    doc.predictions.GetOr([])
  }

  function Max(a: nat, b: nat): nat {
    if a >= b then a else b
  }
}
