/** The two HTTP endpoints of the face recognition microservice, `/enroll` and
    `/verify`: the checks they make before calling the service, and how each
    service result or exception becomes a response and security-alert log
    entries.

    A handler is modelled in two steps, as it is written: the body of its `try`
    block (`EnrollAttempt`, `VerifyAttempt`), which returns a response body or
    raises, and its `except` chain (`EnrollExcept`, `VerifyExcept`), which turns
    what was raised into a response. */
module Endpoints {
  import opened FaceService

  const BadRequest: int := 400
  const InternalServerError: int := 500

  const EnrollPath: string := "/enroll"
  const VerifyPath: string := "/verify"

  const RequiredDetail: string := "stored_embedding is required"
  const FormatDetail: string := "Invalid stored_embedding format. Must be valid JSON array."
  const FileTypeDetail: string := "Invalid file type. Only image files are accepted."
  const EnrollFailureDetail: string := "Internal server error during face enrollment"
  const VerifyFailureDetail: string := "Internal server error during face verification"
  const EnrolledMessage: string := "Face enrolled successfully"
  const VerifiedMessage: string := "Verification completed successfully"

  /** The text of a response: a fixed text, or the message of a service exception. */
  datatype Message = Text(text: string) | ErrorMessage(error: FaceError)

  /** One security-alert log entry (its free-text details are not modelled). */
  datatype Alert = Alert(endpoint: string, reason: string)

  /** The keyword under which a caller passes the third argument of the
      security logger. */
  datatype Keyword = DetailsKeyword | ContentTypeKeyword

  /** The security logger takes `(endpoint, reason, details)`; a call that
      passes its third argument under another keyword raises a TypeError
      before anything is logged (`None`). */
  function LogSuspiciousActivity(endpoint: string, reason: string, keyword: Keyword): (r: Option<Alert>)
    ensures r.Some? <==> keyword == DetailsKeyword
    ensures r.Some? ==> r.value.endpoint == endpoint && r.value.reason == reason
  {
    match keyword
    case DetailsKeyword => Some(Alert(endpoint, reason))
    case ContentTypeKeyword => None
  }

  /** The two places where the handlers' code and their evident intent part:
      the keyword the file-type branch logs with, and whether `/enroll`
      re-raises an HTTP exception raised inside its `try` block. */
  datatype Revision = Revision(fileTypeKeyword: Keyword, enrollReraisesHttp: bool)

  /** The handlers as written. */
  const AsWritten: Revision := Revision(ContentTypeKeyword, false)

  /** The handlers with both defects corrected. */
  const Corrected: Revision := Revision(DetailsKeyword, true)

  /** An exception leaving the body of a handler's `try` block. */
  datatype Raised =
    | ServiceRaised(error: FaceError)
    | HttpRaised(status: int, detail: Message)
    | TypeErrorRaised

  datatype TryOutcome<B> = Returned(body: B) | Threw(raised: Raised)

  /** What a `try` block did, the alerts it logged and the service stages it ran. */
  datatype Attempt<B> = Attempt(outcome: TryOutcome<B>, alerts: seq<Alert>, stages: seq<Stage>)

  /** A handler's response: a response body (status 200) or an HTTP error. */
  datatype Response<B> = Body(body: B) | HttpError(status: int, detail: Message)

  /** A response together with the alerts logged and the service stages run. */
  datatype Handled<B> = Handled(response: Response<B>, alerts: seq<Alert>, stages: seq<Stage>)

  /** An uploaded file: its declared content type and what the foreign code
      makes of its bytes. */
  datatype Upload = Upload(contentType: Option<string>, probe: ImageProbe)

  /** A declared content type is accepted when present and starting with "image/". */
  predicate IsImageType(contentType: Option<string>)
  {
    contentType.Some? && "image/" <= contentType.value
  }

  /** The file-type branch: it logs, then raises a 400, unless the logging
      call itself raises. */
  function RejectFileType<B>(endpoint: string, rev: Revision): (a: Attempt<B>)
    ensures a.outcome.Threw? && a.stages == []
    ensures rev.fileTypeKeyword == ContentTypeKeyword ==>
      a.outcome.raised == TypeErrorRaised && a.alerts == []
    ensures rev.fileTypeKeyword == DetailsKeyword ==>
      a.outcome.raised == HttpRaised(BadRequest, Text(FileTypeDetail)) &&
      a.alerts == [Alert(endpoint, "Invalid file type")]
  {
    match LogSuspiciousActivity(endpoint, "Invalid file type", rev.fileTypeKeyword)
    case None => Attempt(Threw(TypeErrorRaised), [], [])
    case Some(alert) => Attempt(Threw(HttpRaised(BadRequest, Text(FileTypeDetail))), [alert], [])
  }

  // ---------------------------------------------------------------- /enroll

  datatype EnrollmentBody = EnrollmentBody(
    success: bool,
    embedding: Option<Embedding>,
    message: Message,
    faceDetected: bool,
    qualityScore: Option<real>)

  /** The `try` block of `/enroll`: the file-type check, then the service. */
  function EnrollAttempt(upload: Upload, rev: Revision): (a: Attempt<EnrollmentBody>)
    ensures a.stages != [] <==> IsImageType(upload.contentType)
    ensures IsImageType(upload.contentType) ==>
      a.stages == EnrollFace(upload.probe).stages && a.alerts == [] &&
      (a.outcome.Returned? <==> EnrollFace(upload.probe).result.Ok?) &&
      (a.outcome.Threw? ==> a.outcome.raised == ServiceRaised(EnrollFace(upload.probe).result.error))
    ensures a.outcome.Returned? ==>
      a.outcome.body.success && a.outcome.body.faceDetected &&
      GenerateEmbedding(upload.probe.embedding).Ok? &&
      a.outcome.body.embedding == Some(GenerateEmbedding(upload.probe.embedding).value)
  {
    if !IsImageType(upload.contentType) then RejectFileType(EnrollPath, rev)
    else
      var run := EnrollFace(upload.probe);
      match run.result
      case Err(e) => Attempt(Threw(ServiceRaised(e)), [], run.stages)
      case Ok(en) =>
        var body := EnrollmentBody(true, Some(en.embedding), Text(EnrolledMessage), true, Some(en.quality));
        Attempt(Returned(body), [], run.stages)
  }

  /** The `except` chain of `/enroll`. Without an `except HTTPException`
      clause, an HTTP exception raised in the `try` block falls into the
      catch-all clause. */
  function EnrollExcept(raised: Raised, rev: Revision): (r: (Response<EnrollmentBody>, seq<Alert>))
    ensures |r.1| <= 1
    ensures |r.1| == 1 <==> raised.ServiceRaised? && raised.error != Unexpected
    ensures r.0.HttpError? && r.0.status != InternalServerError ==>
      raised.HttpRaised? || (raised.ServiceRaised? && raised.error != Unexpected)
    ensures r.0.Body? ==> !r.0.body.success && !r.0.body.faceDetected && r.0.body.embedding.None?
  {
    match raised
    case ServiceRaised(e) =>
      (match e
       case FaceNotDetected(_) =>
         (Body(EnrollmentBody(false, None, ErrorMessage(e), false, None)), [Alert(EnrollPath, "No face detected")])
       case MultipleFaces(_) =>
         (HttpError(BadRequest, ErrorMessage(e)), [Alert(EnrollPath, "Multiple faces detected")])
       case LowQualityImage(_) =>
         (HttpError(BadRequest, ErrorMessage(e)), [Alert(EnrollPath, "Low quality image")])
       case InvalidImage =>
         (HttpError(BadRequest, ErrorMessage(e)), [Alert(EnrollPath, "Invalid image")])
       case Unexpected =>
         (HttpError(InternalServerError, Text(EnrollFailureDetail)), []))
    case HttpRaised(status, detail) =>
      if rev.enrollReraisesHttp then (HttpError(status, detail), [])
      else (HttpError(InternalServerError, Text(EnrollFailureDetail)), [])
    case TypeErrorRaised =>
      (HttpError(InternalServerError, Text(EnrollFailureDetail)), [])
  }

  /** `POST /enroll`. */
  function EnrollEndpoint(upload: Upload, rev: Revision): (h: Handled<EnrollmentBody>)
    ensures |h.alerts| <= 1
    ensures h.response.HttpError? ==> h.response.status in {BadRequest, InternalServerError}
    ensures h.response.Body? && h.response.body.success ==>
      h.response.body.faceDetected && h.response.body.embedding.Some? &&
      h.response.body.qualityScore.Some? && 0.0 <= h.response.body.qualityScore.value <= 100.0
    ensures h.response.Body? && h.response.body.success <==>
      IsImageType(upload.contentType) && EnrollFace(upload.probe).result.Ok?
    ensures h.stages != [] <==> IsImageType(upload.contentType)
  {
    var attempt := EnrollAttempt(upload, rev);
    match attempt.outcome
    case Returned(body) => Handled(Body(body), attempt.alerts, attempt.stages)
    case Threw(raised) =>
      var (response, alerts) := EnrollExcept(raised, rev);
      Handled(response, attempt.alerts + alerts, attempt.stages)
  }

  /** With an accepted content type, `/enroll` answers from the service's
      result: the embedding on success; a normal response with
      `success=false` on `FaceNotDetected`; 400 on the other three typed
      exceptions; 500 on anything else. Only the typed exceptions log an alert. */
  lemma EnrollOutcomes(upload: Upload, rev: Revision)
    requires IsImageType(upload.contentType)
    ensures var run, h := EnrollFace(upload.probe), EnrollEndpoint(upload, rev);
      h.stages == run.stages &&
      match run.result
      case Ok(en) =>
        h.response == Body(EnrollmentBody(true, Some(en.embedding), Text(EnrolledMessage), true, Some(en.quality))) &&
        h.alerts == []
      case Err(e) =>
        (e.FaceNotDetected? ==>
           h.response == Body(EnrollmentBody(false, None, ErrorMessage(e), false, None)) &&
           h.alerts == [Alert(EnrollPath, "No face detected")]) &&
        (e.MultipleFaces? || e.LowQualityImage? || e.InvalidImage? ==>
           h.response == HttpError(BadRequest, ErrorMessage(e)) && |h.alerts| == 1) &&
        (e == Unexpected ==>
           h.response == HttpError(InternalServerError, Text(EnrollFailureDetail)) && h.alerts == [])
  {
  }

  /** As written, a non-image upload to `/enroll` ends in 500 with no alert:
      the logging call raises a TypeError. */
  lemma EnrollNonImageAsWritten(upload: Upload)
    requires !IsImageType(upload.contentType)
    ensures EnrollEndpoint(upload, AsWritten) ==
      Handled(HttpError(InternalServerError, Text(EnrollFailureDetail)), [], [])
  {
  }

  /** Correcting the keyword alone does not give the intended 400: the 400 is
      raised inside the `try` block, and the catch-all clause turns it into 500. */
  lemma EnrollNonImageKeywordFixAlone(upload: Upload)
    requires !IsImageType(upload.contentType)
    ensures EnrollEndpoint(upload, Revision(DetailsKeyword, false)) ==
      Handled(HttpError(InternalServerError, Text(EnrollFailureDetail)), [Alert(EnrollPath, "Invalid file type")], [])
  {
  }

  /** Corrected, a non-image upload to `/enroll` gets the intended 400 and one
      alert, and the service is not called. */
  lemma EnrollNonImageCorrected(upload: Upload)
    requires !IsImageType(upload.contentType)
    ensures EnrollEndpoint(upload, Corrected) ==
      Handled(HttpError(BadRequest, Text(FileTypeDetail)), [Alert(EnrollPath, "Invalid file type")], [])
  {
  }

  // ---------------------------------------------------------------- /verify

  datatype VerificationBody = VerificationBody(
    success: bool,
    isMatch: bool,
    confidence: real,
    message: Message,
    similarity: Option<real>,
    thresholdUsed: real)

  /** A `/verify` request: the upload and the `stored_embedding` text, if any. */
  datatype VerifyRequest = VerifyRequest(upload: Upload, storedEmbedding: Option<string>)

  /** A missing or empty `stored_embedding`. */
  predicate EmbeddingMissing(req: VerifyRequest)
  {
    req.storedEmbedding.None? || req.storedEmbedding.value == ""
  }

  /** The `try` block of `/verify`: the `stored_embedding` presence check, its
      JSON parse (foreign: `parseJson` says whether and to what it parses), the
      file-type check, then the service; a completed verification that does
      not match logs an alert. */
  function VerifyAttempt(
    req: VerifyRequest,
    parseJson: string -> Option<Embedding>,
    distance: (Embedding, Embedding) -> DistanceProbe,
    rev: Revision): (a: Attempt<VerificationBody>)
    ensures EmbeddingMissing(req) ==>
      a == Attempt(Threw(HttpRaised(BadRequest, Text(RequiredDetail))), [], [])
    ensures !EmbeddingMissing(req) && parseJson(req.storedEmbedding.value).None? ==>
      a == Attempt(Threw(HttpRaised(BadRequest, Text(FormatDetail))), [], [])
    ensures a.stages != [] <==>
      !EmbeddingMissing(req) && parseJson(req.storedEmbedding.value).Some? &&
      IsImageType(req.upload.contentType)
    ensures a.outcome.Returned? ==>
      a.stages == PipelineStages && a.outcome.body.success &&
      (a.alerts == [] <==> a.outcome.body.isMatch) &&
      0.0 <= a.outcome.body.confidence <= 100.0 && a.outcome.body.thresholdUsed == 0.40 &&
      (a.outcome.body.isMatch ==> a.outcome.body.confidence >= 60.0)
    ensures a.outcome.Threw? && a.outcome.raised.HttpRaised? ==>
      a.outcome.raised.status == BadRequest && a.stages == []
    ensures a.outcome.Threw? ==>
      |a.alerts| <= 1 && (a.alerts != [] ==> a.outcome.raised.HttpRaised?)
  {
    if EmbeddingMissing(req) then
      Attempt(Threw(HttpRaised(BadRequest, Text(RequiredDetail))), [], [])
    else
      match parseJson(req.storedEmbedding.value)
      case None => Attempt(Threw(HttpRaised(BadRequest, Text(FormatDetail))), [], [])
      case Some(stored) =>
        if !IsImageType(req.upload.contentType) then RejectFileType(VerifyPath, rev)
        else
          var run := VerifyFace(req.upload.probe, stored, distance);
          match run.result
          case Err(e) => Attempt(Threw(ServiceRaised(e)), [], run.stages)
          case Ok(v) =>
            MatchConfidenceAtLeast60(distance(req.upload.probe.embedding.vectors[0], stored).value, v.quality);
            var body := VerificationBody(true, v.isMatch, v.confidence, Text(VerifiedMessage),
                                         Some(v.similarity), v.threshold);
            var alerts := if v.isMatch then [] else [Alert(VerifyPath, "Face verification failed")];
            Attempt(Returned(body), alerts, run.stages)
  }

  /** The `except` chain of `/verify`: the four typed exceptions first, then
      HTTP exceptions re-raised unchanged, then the catch-all. */
  function VerifyExcept(raised: Raised): (r: (Response<VerificationBody>, seq<Alert>))
    ensures |r.1| <= 1
    ensures |r.1| == 1 <==> raised.ServiceRaised? && raised.error != Unexpected
    ensures r.0.Body? ==>
      !r.0.body.success && !r.0.body.isMatch && r.0.body.confidence == 0.0 &&
      r.0.body.thresholdUsed == 0.40
    ensures r.0.HttpError? ==>
      r.0.status in {BadRequest, InternalServerError} || raised.HttpRaised?
  {
    match raised
    case ServiceRaised(e) =>
      (match e
       case FaceNotDetected(_) =>
         (Body(VerificationBody(false, false, 0.0, ErrorMessage(e), None, VerificationThreshold)),
          [Alert(VerifyPath, "No face detected in verification")])
       case MultipleFaces(_) =>
         (HttpError(BadRequest, ErrorMessage(e)), [Alert(VerifyPath, "Multiple faces in verification")])
       case LowQualityImage(_) =>
         (HttpError(BadRequest, ErrorMessage(e)), [Alert(VerifyPath, "Low quality image in verification")])
       case InvalidImage =>
         (HttpError(BadRequest, ErrorMessage(e)), [Alert(VerifyPath, "Invalid image in verification")])
       case Unexpected =>
         (HttpError(InternalServerError, Text(VerifyFailureDetail)), []))
    case HttpRaised(status, detail) => (HttpError(status, detail), [])
    case TypeErrorRaised => (HttpError(InternalServerError, Text(VerifyFailureDetail)), [])
  }

  /** `POST /verify`. */
  function VerifyEndpoint(
    req: VerifyRequest,
    parseJson: string -> Option<Embedding>,
    distance: (Embedding, Embedding) -> DistanceProbe,
    rev: Revision): (h: Handled<VerificationBody>)
    ensures |h.alerts| <= 1
    ensures h.response.HttpError? ==> h.response.status in {BadRequest, InternalServerError}
    ensures h.response.Body? ==>
      0.0 <= h.response.body.confidence <= 100.0 && h.response.body.thresholdUsed == 0.40
    ensures h.response.Body? && h.response.body.success ==> h.stages == PipelineStages
    ensures h.response.Body? && h.response.body.isMatch ==>
      h.response.body.success && h.response.body.confidence >= 60.0 && h.alerts == []
    ensures h.stages != [] ==>
      !EmbeddingMissing(req) && parseJson(req.storedEmbedding.value).Some? &&
      IsImageType(req.upload.contentType)
  {
    var attempt := VerifyAttempt(req, parseJson, distance, rev);
    match attempt.outcome
    case Returned(body) =>
      Handled(Body(body), attempt.alerts, attempt.stages)
    case Threw(raised) =>
      var (response, alerts) := VerifyExcept(raised);
      Handled(response, attempt.alerts + alerts, attempt.stages)
  }

  /** A missing or empty `stored_embedding` is answered with 400 before
      anything else is looked at: the parser, the upload and the service play
      no part, and nothing is logged. */
  lemma MissingEmbeddingFirst(
    req: VerifyRequest,
    parseJson: string -> Option<Embedding>,
    distance: (Embedding, Embedding) -> DistanceProbe,
    rev: Revision)
    requires EmbeddingMissing(req)
    ensures VerifyEndpoint(req, parseJson, distance, rev) ==
      Handled(HttpError(BadRequest, Text(RequiredDetail)), [], [])
  {
  }

  /** A `stored_embedding` that does not parse is answered with 400 before the
      upload is looked at. */
  lemma MalformedEmbeddingSecond(
    req: VerifyRequest,
    parseJson: string -> Option<Embedding>,
    distance: (Embedding, Embedding) -> DistanceProbe,
    rev: Revision)
    requires !EmbeddingMissing(req) && parseJson(req.storedEmbedding.value).None?
    ensures VerifyEndpoint(req, parseJson, distance, rev) ==
      Handled(HttpError(BadRequest, Text(FormatDetail)), [], [])
  {
  }

  /** Once the embedding parses and the content type is accepted, `/verify`
      answers from the service's result: a completed verification has
      `success=true` and carries the service's match, confidence and
      threshold, with an alert exactly when it does not match;
      `FaceNotDetected` gives a normal response with `success=false`,
      `match=false` and confidence 0; the other typed exceptions give 400; each
      of those four logs one alert; anything else gives 500 and no alert. */
  lemma VerifyOutcomes(
    req: VerifyRequest,
    parseJson: string -> Option<Embedding>,
    distance: (Embedding, Embedding) -> DistanceProbe,
    rev: Revision)
    requires !EmbeddingMissing(req) && parseJson(req.storedEmbedding.value).Some?
    requires IsImageType(req.upload.contentType)
    ensures var run := VerifyFace(req.upload.probe, parseJson(req.storedEmbedding.value).value, distance);
      var h := VerifyEndpoint(req, parseJson, distance, rev);
      h.stages == run.stages &&
      match run.result
      case Ok(v) =>
        h.response.Body? && h.response.body.success &&
        h.response.body.isMatch == v.isMatch && h.response.body.confidence == v.confidence &&
        h.response.body.thresholdUsed == v.threshold &&
        (h.alerts == [] <==> v.isMatch)
      case Err(e) =>
        (e.FaceNotDetected? ==>
           h.response == Body(VerificationBody(false, false, 0.0, ErrorMessage(e), None, 0.40)) &&
           |h.alerts| == 1) &&
        (e.MultipleFaces? || e.LowQualityImage? || e.InvalidImage? ==>
           h.response == HttpError(BadRequest, ErrorMessage(e)) && |h.alerts| == 1) &&
        (e == Unexpected ==>
           h.response == HttpError(InternalServerError, Text(VerifyFailureDetail)) && h.alerts == [])
  {
  }

  /** As written, a non-image upload to `/verify` ends in 500 with no alert:
      the logging call raises a TypeError, which the catch-all clause takes. */
  lemma VerifyNonImageAsWritten(
    req: VerifyRequest,
    parseJson: string -> Option<Embedding>,
    distance: (Embedding, Embedding) -> DistanceProbe)
    requires !EmbeddingMissing(req) && parseJson(req.storedEmbedding.value).Some?
    requires !IsImageType(req.upload.contentType)
    ensures VerifyEndpoint(req, parseJson, distance, AsWritten) ==
      Handled(HttpError(InternalServerError, Text(VerifyFailureDetail)), [], [])
  {
  }

  /** Corrected, a non-image upload to `/verify` gets the intended 400 and one
      alert, and the service is not called. */
  lemma VerifyNonImageCorrected(
    req: VerifyRequest,
    parseJson: string -> Option<Embedding>,
    distance: (Embedding, Embedding) -> DistanceProbe)
    requires !EmbeddingMissing(req) && parseJson(req.storedEmbedding.value).Some?
    requires !IsImageType(req.upload.contentType)
    ensures VerifyEndpoint(req, parseJson, distance, Corrected) ==
      Handled(HttpError(BadRequest, Text(FileTypeDetail)), [Alert(VerifyPath, "Invalid file type")], [])
  {
  }
}
