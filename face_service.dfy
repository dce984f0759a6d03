/** The decision logic of the face recognition service: the image-size gate,
    the single-face detection gate, the quality score, the match verdict and
    the order of the enrolment and verification stages.

    The machine-learning and image-decoding calls are not modelled; what they
    return for one uploaded image is an input (`ImageProbe`), and the cosine
    distance between two embeddings is a function parameter. */
module FaceService {
  import opened Numerics

  datatype Option<T> = None | Some(value: T)

  // Class constants of the service.
  const VerificationThreshold: real := 0.40
  const MinFaceSize: int := 80
  const MinImageSize: int := 150
  const MaxImageSize: int := 4096
  const QualityThreshold: real := 30.0
  /** Detections at or below this confidence are discarded. */
  const DetectionConfidenceFloor: real := 0.9
  /** The score reported when the quality computation itself fails. */
  const DefaultQualityScore: real := 50.0

  /** Height and width in pixels of a decoded image. */
  datatype Dims = Dims(height: nat, width: nat)

  /** The `facial_area` box of a detection. */
  datatype Region = Region(x: int, y: int, w: int, h: int)

  /** One entry of the face detector's output; `confidence` is `None` when the
      entry carries no confidence key. */
  datatype Detection = Detection(confidence: Option<real>, area: Region)

  /** What the image-statistics code measures on the face crop: the variance of
      its Laplacian and its mean grey level; `Unmeasurable` when that code raises. */
  datatype QualityProbe = Measured(sharpness: real, brightness: real) | Unmeasurable

  type Embedding = seq<real>

  /** The embedding model's output: the list of representations, or a raise. */
  datatype EmbeddingProbe = Represented(vectors: seq<Embedding>) | RepresentFailed

  /** The cosine-distance computation's output, or a raise (a shape mismatch). */
  datatype DistanceProbe = Distance(value: real) | DistanceFailed

  /** Everything the foreign code returns for one uploaded image: the decoded
      size (`None` when decoding fails), the detector output (`None` when the
      detector raises), the quality measurement and the embedding output. */
  datatype ImageProbe = ImageProbe(
    decoded: Option<Dims>,
    detections: Option<seq<Detection>>,
    quality: QualityProbe,
    embedding: EmbeddingProbe)

  datatype LowQualityCause =
    | ImageTooSmall
    | ImageTooLarge
    | FaceTooSmall(w: int, h: int)
    | ScoreTooLow(score: real)

  datatype NotDetectedCause = NoConfidentFace | DetectorFailed | NoEmbedding

  /** The service's exceptions. `Unexpected` is any other exception that leaves
      the service: one raised by the embedding model or the distance computation. */
  datatype FaceError =
    | FaceNotDetected(cause: NotDetectedCause)
    | MultipleFaces(count: nat)
    | LowQualityImage(lowQuality: LowQualityCause)
    | InvalidImage
    | Unexpected

  datatype Result<T> = Ok(value: T) | Err(error: FaceError)

  // ---------------------------------------------------------------- loading

  /** Decoding an upload: any decoding failure becomes `InvalidImage`. */
  function LoadImage(decoded: Option<Dims>): (r: Result<Dims>)
    ensures r.Err? <==> decoded.None?
    ensures r.Err? ==> r.error == InvalidImage
    ensures r.Ok? ==> r.value == decoded.value
  {
    match decoded
    case None => Err(InvalidImage)
    case Some(d) => Ok(d)
  }

  // ------------------------------------------------------------- size gate

  /** The image-size gate: `None` when the image passes, else why it fails.
      "Too small" is tested before "too large". */
  function ValidateImageSize(d: Dims): (r: Option<LowQualityCause>)
    ensures r.None? <==>
      MinImageSize <= d.height <= MaxImageSize && MinImageSize <= d.width <= MaxImageSize
    ensures r == Some(ImageTooSmall) <==> d.height < MinImageSize || d.width < MinImageSize
    ensures r == Some(ImageTooLarge) <==>
      d.height >= MinImageSize && d.width >= MinImageSize &&
      (d.height > MaxImageSize || d.width > MaxImageSize)
  {
    if d.height < MinImageSize || d.width < MinImageSize then Some(ImageTooSmall)
    else if d.height > MaxImageSize || d.width > MaxImageSize then Some(ImageTooLarge)
    else None
  }

  /** An image too short in one dimension and too wide in the other is
      reported as too small. */
  lemma TooSmallWinsOverTooLarge()
    ensures ValidateImageSize(Dims(100, 5000)) == Some(ImageTooSmall)
    ensures ValidateImageSize(Dims(5000, 100)) == Some(ImageTooSmall)
    ensures ValidateImageSize(Dims(150, 4096)).None?
    ensures ValidateImageSize(Dims(4097, 4096)) == Some(ImageTooLarge)
  {
  }

  // ------------------------------------------------------- confidence filter

  /** A missing confidence counts as 0. */
  function ConfidenceOf(d: Detection): real
  {
    match d.confidence
    case None => 0.0
    case Some(c) => c
  }

  predicate IsConfident(d: Detection)
  {
    ConfidenceOf(d) > DetectionConfidenceFloor
  }

  /** The detections that survive the confidence filter, in detector order. */
  function ValidFaces(ds: seq<Detection>): (vs: seq<Detection>)
    ensures |vs| <= |ds|
    ensures forall k :: 0 <= k < |vs| ==> IsConfident(vs[k])
    ensures forall d :: d in vs <==> d in ds && IsConfident(d)
  {
    if ds == [] then []
    else if IsConfident(ds[0]) then [ds[0]] + ValidFaces(ds[1..])
    else ValidFaces(ds[1..])
  }

  /** `i` is the one confident detection of `ds`. */
  predicate SoleConfident(ds: seq<Detection>, i: int)
  {
    0 <= i < |ds| && IsConfident(ds[i]) &&
    forall j :: 0 <= j < |ds| && IsConfident(ds[j]) ==> j == i
  }

  /** The filter keeps nothing exactly when no detection is confident. */
  lemma {:induction false} NoValidFaces(ds: seq<Detection>)
    ensures ValidFaces(ds) == [] <==> forall i :: 0 <= i < |ds| ==> !IsConfident(ds[i])
  {
    if ds != [] {
      NoValidFaces(ds[1..]);
      if ValidFaces(ds) == [] {
        forall i | 0 <= i < |ds| ensures !IsConfident(ds[i]) {
          if i > 0 { assert ds[i] == ds[1..][i - 1]; }
        }
      } else {
        assert exists i :: 0 <= i < |ds| && IsConfident(ds[i]) by {
          if !IsConfident(ds[0]) {
            var k :| 0 <= k < |ds| - 1 && IsConfident(ds[1..][k]);
            assert ds[k + 1] == ds[1..][k];
          }
        }
      }
    }
  }

  /** The filter keeps exactly one detection exactly when one detection is
      confident, and then it keeps that one. */
  lemma {:induction false} OneValidFace(ds: seq<Detection>)
    ensures |ValidFaces(ds)| == 1 <==> exists i :: SoleConfident(ds, i)
    ensures forall i :: SoleConfident(ds, i) ==> ValidFaces(ds) == [ds[i]]
  {
    if ds != [] {
      OneValidFace(ds[1..]);
      NoValidFaces(ds[1..]);
      var tail := ds[1..];
      forall j | 1 <= j < |ds| ensures ds[j] == tail[j - 1] { }
      if IsConfident(ds[0]) {
        if ValidFaces(tail) == [] {
          assert SoleConfident(ds, 0);
        } else {
          var k :| 0 <= k < |tail| && IsConfident(tail[k]);
          assert !SoleConfident(ds, 0) && IsConfident(ds[k + 1]);
        }
      } else {
        forall i | SoleConfident(ds, i) ensures i > 0 && SoleConfident(tail, i - 1) { }
        forall i | SoleConfident(tail, i) ensures SoleConfident(ds, i + 1) {
          forall j | 0 <= j < |ds| && IsConfident(ds[j]) ensures j == i + 1 {
            assert j > 0;
          }
        }
      }
    }
  }

  /** The filter keeps two or more detections exactly when two distinct
      detections are confident. */
  lemma {:induction false} SeveralValidFaces(ds: seq<Detection>)
    ensures |ValidFaces(ds)| >= 2 <==>
      exists i, j :: 0 <= i < j < |ds| && IsConfident(ds[i]) && IsConfident(ds[j])
  {
    NoValidFaces(ds);
    OneValidFace(ds);
    if |ValidFaces(ds)| >= 2 {
      assert ValidFaces(ds) != [];
      var i :| 0 <= i < |ds| && IsConfident(ds[i]);
      assert !SoleConfident(ds, i);
      var j :| 0 <= j < |ds| && IsConfident(ds[j]) && j != i;
      if j < i {
        assert 0 <= j < i < |ds| && IsConfident(ds[j]) && IsConfident(ds[i]);
      } else {
        assert 0 <= i < j < |ds| && IsConfident(ds[i]) && IsConfident(ds[j]);
      }
    }
  }

  // ---------------------------------------------------------- quality score

  function SharpnessScore(laplacianVariance: real): real
  {
    Min(laplacianVariance / 500.0 * 100.0, 100.0)
  }

  /** Best at a mean grey level of 127. */
  function BrightnessScore(brightness: real): real
  {
    100.0 - Abs(brightness - 127.0) / 127.0 * 100.0
  }

  function SizeScore(sizeRatio: real): real
  {
    Min(sizeRatio * 500.0, 100.0)
  }

  /** The weighted average before rounding. */
  function WeightedQuality(sharpness: real, brightness: real, sizeRatio: real): (q: real)
    ensures q <= 100.0
    ensures sharpness >= 0.0 && 0.0 <= brightness <= 254.0 && sizeRatio >= 0.0 ==> q >= 0.0
  {
    SharpnessScore(sharpness) * 0.5 + BrightnessScore(brightness) * 0.3 + SizeScore(sizeRatio) * 0.2
  }

  /** Share of the image covered by the face box. */
  function SizeRatio(img: Dims, face: Region): real
    requires img.height * img.width > 0
  {
    (face.w * face.h) as real / (img.height * img.width) as real
  }

  /** The quality score of the face box `face` in an image of size `img`,
      rounded to hundredths; 50.0 when the computation raises (the statistics
      code fails, or the image area is zero). */
  function QualityScore(img: Dims, face: Region, probe: QualityProbe): (q: real)
    ensures q <= 100.0
  {
    match probe
    case Unmeasurable => DefaultQualityScore
    case Measured(sharpness, brightness) =>
      if img.height * img.width == 0 then DefaultQualityScore
      else
        var raw := WeightedQuality(sharpness, brightness, SizeRatio(img, face));
        RoundHundredthsMonotone(raw, 100.0);
        RoundHundredthsOfInteger(100);
        RoundHundredths(raw)
  }

  /** Whenever the computation raises, the score is exactly 50.0. */
  lemma QualityFailureIsNeutral(img: Dims, face: Region, sharpness: real, brightness: real)
    ensures QualityScore(img, face, Unmeasurable) == 50.0
    ensures QualityScore(Dims(img.height, 0), face, Measured(sharpness, brightness)) == 50.0
    ensures QualityScore(Dims(0, img.width), face, Measured(sharpness, brightness)) == 50.0
  {
  }

  /** The score is not negative when the sharpness variance is not negative,
      the face box is not inverted and the mean brightness is at most 254. */
  lemma QualityScoreNonNegative(img: Dims, face: Region, sharpness: real, brightness: real)
    requires sharpness >= 0.0 && 0.0 <= brightness <= 254.0 && face.w >= 0 && face.h >= 0
    ensures QualityScore(img, face, Measured(sharpness, brightness)) >= 0.0
  {
  }

  /** The documented 0..100 range fails below: a fully white 1x1 face crop
      with no sharpness in a 400x400 image scores -0.24, and an 80x80 face in
      a 4096x4096 image (the smallest size share the gates let through) still
      scores -0.2. */
  lemma QualityScoreCanBeNegative()
    ensures QualityScore(Dims(400, 400), Region(0, 0, 1, 1), Measured(0.0, 255.0)) == -0.24
    ensures QualityScore(Dims(4096, 4096), Region(0, 0, 80, 80), Measured(0.0, 255.0)) == -0.2
  {
    assert BrightnessScore(255.0) == -100.0 / 127.0;
    assert SizeRatio(Dims(4096, 4096), Region(0, 0, 80, 80)) == 6400.0 / 16777216.0;
    assert SizeRatio(Dims(400, 400), Region(0, 0, 1, 1)) == 1.0 / 160000.0;
    assert RoundHalfEven(WeightedQuality(0.0, 255.0, 1.0 / 160000.0) * 100.0) == -24;
    assert RoundHalfEven(WeightedQuality(0.0, 255.0, 6400.0 / 16777216.0) * 100.0) == -20;
  }

  // ------------------------------------------------------ single-face gate

  /** A detected face: its box and its quality score. */
  datatype Detected = Detected(region: Region, quality: real)

  /** The detection gate. The confidence filter runs first, then the count
      checks (none, several), then the face-size check and last the quality
      check. Any other failure inside the gate (the detector raising) is
      reported as `FaceNotDetected`. */
  function DetectFace(img: Dims, detections: Option<seq<Detection>>, quality: QualityProbe): (r: Result<Detected>)
    ensures r.Err? ==>
      r.error.FaceNotDetected? || r.error.MultipleFaces? || r.error.LowQualityImage?
    ensures r == Err(FaceNotDetected(DetectorFailed)) <==> detections.None?
    ensures r.Ok? ==>
      detections.Some? &&
      (exists i :: SoleConfident(detections.value, i) && detections.value[i].area == r.value.region) &&
      r.value.region.w >= MinFaceSize && r.value.region.h >= MinFaceSize &&
      QualityThreshold <= r.value.quality <= 100.0
  {
    match detections
    case None => Err(FaceNotDetected(DetectorFailed))
    case Some(ds) =>
      var valid := ValidFaces(ds);
      if |valid| == 0 then Err(FaceNotDetected(NoConfidentFace))
      else if |valid| > 1 then Err(MultipleFaces(|valid|))
      else
        var face := valid[0].area;
        if face.w < MinFaceSize || face.h < MinFaceSize then
          Err(LowQualityImage(FaceTooSmall(face.w, face.h)))
        else
          var score := QualityScore(img, face, quality);
          if score < QualityThreshold then Err(LowQualityImage(ScoreTooLow(score)))
          else
            OneValidFace(ds);
            Ok(Detected(face, score))
  }

  /** No confident detection: `FaceNotDetected`, whatever the boxes and the
      quality measurement are. */
  lemma NoConfidentFaceIsNotDetected(img: Dims, ds: seq<Detection>, quality: QualityProbe)
    requires forall i :: 0 <= i < |ds| ==> !IsConfident(ds[i])
    ensures DetectFace(img, Some(ds), quality) == Err(FaceNotDetected(NoConfidentFace))
  {
    NoValidFaces(ds);
  }

  /** Two confident detections: `MultipleFaces`, whatever the boxes and the
      quality measurement are. */
  lemma TwoConfidentFacesAreMultiple(img: Dims, ds: seq<Detection>, quality: QualityProbe, i: int, j: int)
    requires 0 <= i < j < |ds| && IsConfident(ds[i]) && IsConfident(ds[j])
    ensures DetectFace(img, Some(ds), quality).Err?
    ensures DetectFace(img, Some(ds), quality).error.MultipleFaces?
    ensures DetectFace(img, Some(ds), quality).error.count >= 2
  {
    SeveralValidFaces(ds);
  }

  /** One confident detection: its box decides, then the quality score. */
  lemma SoleFaceGate(img: Dims, ds: seq<Detection>, quality: QualityProbe, i: int)
    requires SoleConfident(ds, i)
    ensures var face := ds[i].area;
      DetectFace(img, Some(ds), quality) ==
        if face.w < MinFaceSize || face.h < MinFaceSize then
          Err(LowQualityImage(FaceTooSmall(face.w, face.h)))
        else if QualityScore(img, face, quality) < QualityThreshold then
          Err(LowQualityImage(ScoreTooLow(QualityScore(img, face, quality))))
        else Ok(Detected(face, QualityScore(img, face, quality)))
  {
    OneValidFace(ds);
  }

  // --------------------------------------------------------------- verdict

  function IsMatch(distance: real): bool
  {
    distance <= VerificationThreshold
  }

  /** `(1 - distance) * 100` clamped to 0..100, before rounding. */
  function RawConfidence(distance: real): (c: real)
    ensures 0.0 <= c <= 100.0
    ensures distance <= 0.0 ==> c == 100.0
    ensures distance >= 1.0 ==> c == 0.0
    ensures 0.0 <= distance <= 1.0 ==> c + distance * 100.0 == 100.0
  {
    Max(0.0, Min(100.0, (1.0 - distance) * 100.0))
  }

  /** The outcome of a completed verification. */
  datatype Verification = Verification(
    isMatch: bool, confidence: real, similarity: real, threshold: real, quality: real)

  /** The verdict for a cosine distance: the match flag, the confidence rounded
      to hundredths, the distance rounded to four places and the threshold. */
  function Verdict(distance: real, quality: real): (v: Verification)
    ensures v.isMatch <==> distance <= 0.40
    ensures v.threshold == 0.40
    ensures 0.0 <= v.confidence <= 100.0
    ensures Abs(v.confidence - RawConfidence(distance)) <= 0.005
    ensures Abs(v.similarity - distance) <= 0.00005
    ensures v.quality == quality
  {
    var c := RawConfidence(distance);
    RoundHundredthsMonotone(0.0, c);
    RoundHundredthsMonotone(c, 100.0);
    RoundHundredthsOfInteger(0);
    RoundHundredthsOfInteger(100);
    Verification(IsMatch(distance), RoundHundredths(c), RoundTenThousandths(distance),
                 VerificationThreshold, quality)
  }

  /** The reported confidence does not rise as the distance grows. */
  lemma ConfidenceNonIncreasing(d1: real, d2: real, q: real)
    requires d1 <= d2
    ensures Verdict(d2, q).confidence <= Verdict(d1, q).confidence
  {
    assert RawConfidence(d2) <= RawConfidence(d1);
    RoundHundredthsMonotone(RawConfidence(d2), RawConfidence(d1));
  }

  /** Every match is reported with a confidence of at least 60, and a distance
      of 0 or less with 100. */
  lemma MatchConfidenceAtLeast60(distance: real, q: real)
    ensures Verdict(distance, q).isMatch ==> Verdict(distance, q).confidence >= 60.0
    ensures distance <= 0.0 ==> Verdict(distance, q).confidence == 100.0
  {
  }

  /** The rounded confidence does not determine the match: just above the
      threshold the confidence is still reported as 60.0. */
  lemma RoundedConfidenceAtThreshold()
    ensures !Verdict(0.40001, 0.0).isMatch && Verdict(0.40001, 0.0).confidence == 60.0
    ensures Verdict(0.40, 0.0).isMatch && Verdict(0.40, 0.0).confidence == 60.0
  {
  }

  // ---------------------------------------------------- stage composition

  datatype Stage = Load | SizeCheck | Detect | Embed | Compare

  /** The stages in the order both operations run them. */
  const PipelineStages: seq<Stage> := [Load, SizeCheck, Detect, Embed, Compare]

  /** A result together with the stages that ran to produce it. */
  datatype Run<T> = Run(result: Result<T>, stages: seq<Stage>)

  /** The embedding model's output: an empty list becomes `FaceNotDetected`,
      a raise leaves the service unchanged (as `Unexpected`). */
  function GenerateEmbedding(probe: EmbeddingProbe): (r: Result<Embedding>)
    ensures r.Ok? <==> probe.Represented? && probe.vectors != []
    ensures r.Ok? ==> r.value == probe.vectors[0]
    ensures r.Err? ==> r.error in {FaceNotDetected(NoEmbedding), Unexpected}
  {
    match probe
    case RepresentFailed => Err(Unexpected)
    case Represented(vectors) =>
      if vectors == [] then Err(FaceNotDetected(NoEmbedding)) else Ok(vectors[0])
  }

  /** The image and the face it holds, once every gate has passed. */
  datatype Gated = Gated(dims: Dims, face: Detected)

  /** Load, then the size gate, then the detection gate; the first failure ends
      the run. */
  function RunGates(p: ImageProbe): (run: Run<Gated>)
    ensures 1 <= |run.stages| <= 3 && run.stages == PipelineStages[..|run.stages|]
    ensures run.result.Ok? ==> run.stages == PipelineStages[..3]
    ensures run.result.Ok? <==> GatesPass(p)
    ensures SizeCheck in run.stages <==> p.decoded.Some?
    ensures Detect in run.stages <==> p.decoded.Some? && ValidateImageSize(p.decoded.value).None?
    ensures p.decoded.None? ==> run.result == Err(InvalidImage)
    ensures p.decoded.Some? && ValidateImageSize(p.decoded.value).Some? ==>
      run.result == Err(LowQualityImage(ValidateImageSize(p.decoded.value).value))
    ensures Detect in run.stages && run.result.Err? ==>
      run.result.error == DetectFace(p.decoded.value, p.detections, p.quality).error
    ensures run.result.Ok? ==>
      run.result.value == Gated(p.decoded.value, DetectFace(p.decoded.value, p.detections, p.quality).value)
  {
    match LoadImage(p.decoded)
    case Err(e) => Run(Err(e), [Load])
    case Ok(dims) =>
      match ValidateImageSize(dims)
      case Some(cause) => Run(Err(LowQualityImage(cause)), [Load, SizeCheck])
      case None =>
        match DetectFace(dims, p.detections, p.quality)
        case Err(e) => Run(Err(e), [Load, SizeCheck, Detect])
        case Ok(face) => Run(Ok(Gated(dims, face)), [Load, SizeCheck, Detect])
  }

  /** Every gate passes: the image decodes, has an accepted size and holds a
      single accepted face. */
  predicate GatesPass(p: ImageProbe)
  {
    p.decoded.Some? && ValidateImageSize(p.decoded.value).None? &&
    DetectFace(p.decoded.value, p.detections, p.quality).Ok?
  }

  /** Which errors each stage can raise. */
  predicate RaisedBy(s: Stage, e: FaceError)
  {
    match s
    case Load => e == InvalidImage
    case SizeCheck => e == LowQualityImage(ImageTooSmall) || e == LowQualityImage(ImageTooLarge)
    case Detect => e.FaceNotDetected? || e.MultipleFaces? || e.LowQualityImage?
    case Embed => e == FaceNotDetected(NoEmbedding) || e == Unexpected
    case Compare => e == Unexpected
  }

  /** The result of an enrolment. */
  datatype Enrollment = Enrollment(embedding: Embedding, quality: real, faceWidth: int, faceHeight: int)

  /** Enrolment: the gates, then the embedding. */
  function EnrollFace(p: ImageProbe): (run: Run<Enrollment>)
    ensures 1 <= |run.stages| <= 4 && run.stages == PipelineStages[..|run.stages|]
    ensures Embed in run.stages <==> GatesPass(p)
    ensures run.result.Err? ==> RaisedBy(run.stages[|run.stages| - 1], run.result.error)
    ensures !GatesPass(p) ==>
      run.stages == RunGates(p).stages && run.result == Err(RunGates(p).result.error)
    ensures GatesPass(p) && GenerateEmbedding(p.embedding).Err? ==>
      run.result == Err(GenerateEmbedding(p.embedding).error)
    ensures run.result.Ok? <==> GatesPass(p) && GenerateEmbedding(p.embedding).Ok?
    ensures run.result.Ok? ==>
      run.result.value.embedding == p.embedding.vectors[0] &&
      run.result.value.faceWidth >= MinFaceSize && run.result.value.faceHeight >= MinFaceSize &&
      QualityThreshold <= run.result.value.quality <= 100.0
    ensures run.result.Ok? ==>
      var face := RunGates(p).result.value.face;
      run.result.value.quality == face.quality &&
      run.result.value.faceWidth == face.region.w && run.result.value.faceHeight == face.region.h
  {
    var gates := RunGates(p);
    match gates.result
    case Err(e) => Run(Err(e), gates.stages)
    case Ok(g) =>
      var stages := gates.stages + [Embed];
      match GenerateEmbedding(p.embedding)
      case Err(e) => Run(Err(e), stages)
      case Ok(embedding) =>
        Run(Ok(Enrollment(embedding, g.face.quality, g.face.region.w, g.face.region.h)), stages)
  }

  /** Verification: the gates, then the embedding, then the distance to the
      stored embedding and the verdict on it. */
  function VerifyFace(p: ImageProbe, stored: Embedding, distance: (Embedding, Embedding) -> DistanceProbe): (run: Run<Verification>)
    ensures 1 <= |run.stages| <= 5 && run.stages == PipelineStages[..|run.stages|]
    ensures Embed in run.stages <==> GatesPass(p)
    ensures Compare in run.stages <==> GatesPass(p) && GenerateEmbedding(p.embedding).Ok?
    ensures run.result.Err? ==> RaisedBy(run.stages[|run.stages| - 1], run.result.error)
    ensures !GatesPass(p) ==>
      run.stages == RunGates(p).stages && run.result == Err(RunGates(p).result.error)
    ensures GatesPass(p) && GenerateEmbedding(p.embedding).Err? ==>
      run.result == Err(GenerateEmbedding(p.embedding).error)
    ensures run.result.Ok? <==>
      GatesPass(p) && GenerateEmbedding(p.embedding).Ok? &&
      distance(p.embedding.vectors[0], stored).Distance?
    ensures Compare in run.stages && distance(p.embedding.vectors[0], stored).DistanceFailed? ==>
      run.result == Err(Unexpected)
    ensures run.result.Ok? ==>
      run.result.value == Verdict(distance(p.embedding.vectors[0], stored).value, RunGates(p).result.value.face.quality)
    ensures run.result.Ok? ==>
      run.stages == PipelineStages &&
      distance(p.embedding.vectors[0], stored).Distance? &&
      (run.result.value.isMatch <==> distance(p.embedding.vectors[0], stored).value <= 0.40) &&
      run.result.value.threshold == 0.40 &&
      0.0 <= run.result.value.confidence <= 100.0 &&
      QualityThreshold <= run.result.value.quality <= 100.0
  {
    var gates := RunGates(p);
    match gates.result
    case Err(e) => Run(Err(e), gates.stages)
    case Ok(g) =>
      match GenerateEmbedding(p.embedding)
      case Err(e) => Run(Err(e), gates.stages + [Embed])
      case Ok(current) =>
        var stages := gates.stages + [Embed, Compare];
        match distance(current, stored)
        case DistanceFailed => Run(Err(Unexpected), stages)
        case Distance(d) => Run(Ok(Verdict(d, g.face.quality)), stages)
  }

  /** The errors that leave the service are the four typed exceptions, except
      that the embedding and distance stages can also let another one through. */
  lemma ServiceErrorKinds(p: ImageProbe, stored: Embedding, distance: (Embedding, Embedding) -> DistanceProbe)
    ensures var run := VerifyFace(p, stored, distance);
      run.result.Err? && run.result.error == Unexpected ==>
        run.stages[|run.stages| - 1] in {Embed, Compare}
    ensures var run := EnrollFace(p);
      run.result.Err? && run.result.error == Unexpected ==> run.stages[|run.stages| - 1] == Embed
  {
  }
}
