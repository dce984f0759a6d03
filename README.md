# Face recognition microservice: gates, verdicts and endpoint outcomes

This project models the decision logic of the attendance system's face
recognition microservice (`ai-service/`) in Dafny and proves properties of it.

- `face_service.dfy` (module `FaceService`) covers the service class. It has
  the image-size gate and the single-face detection gate. The gate runs the
  confidence filter, then the face count, then the face size, then the quality
  score. It also has the weighted quality score and the match verdict with its
  clamped confidence. Last, it has the order of the load, size check, detect,
  embed and compare stages in enrolment and verification.
- `endpoints.dfy` (module `Endpoints`) covers the `/enroll` and `/verify`
  handlers. It models the checks each handler makes before calling the
  service. It also models how each service result or exception becomes a
  response (a body with status 200, or a 400 or 500 error) and how many
  security-alert log entries are written.
- `numerics.dfy` (module `Numerics`) holds `abs`, `min` and `max`, and
  Python's `round(x, 2)` and `round(x, 4)` taken on exact reals.

The machine-learning and image-decoding libraries are not modelled. What they
return for one uploaded image is an input, the `ImageProbe`: the decoded
size, the detector's list of detections, the sharpness and brightness
measurements, and the embedding model's output. The cosine distance between
two embeddings and the JSON parse of `stored_embedding` are function
parameters. Every function in the model is pure. The service has no mutable
state in the modelled part. The endpoints' only side effect is the security
log, and the model returns it as a list of `Alert` values.

The two handlers carry defects in their file-type branch. Each handler is
modelled once and takes a `Revision` argument. `AsWritten` is the code as it
stands. `Corrected` passes the logger's third argument as `details=` and gives
`/enroll` the `except HTTPException` clause that `/verify` has. See
"## Findings".

## Model

| member | source | states |
|---|---|---|
| `Numerics.RoundHalfEven` | ai-service/face_recognition_service.py:172 | `round` lands within 1/2 of its input, and a tie goes to the even integer |
| `Numerics.RoundHalfEvenIsNearest` | ai-service/face_recognition_service.py:172 | no integer is closer to the input than its rounding |
| `Numerics.RoundHundredths` | ai-service/face_recognition_service.py:390 | `round(x, 2)` is a multiple of 0.01 and lies within 0.005 of `x`; on a tie it is the even multiple |
| `Numerics.RoundTenThousandths` | ai-service/face_recognition_service.py:391 | `round(x, 4)` is a multiple of 0.0001 and lies within 0.00005 of `x`; on a tie it is the even multiple |
| `Numerics.RoundHundredthsMonotone` | ai-service/face_recognition_service.py:390 | `round(x, 2)` keeps the order of its inputs |
| `FaceService.LoadImage` | ai-service/face_recognition_service.py:91-108 | any decoding failure becomes `InvalidImage`, and only a decoding failure does |
| `FaceService.ValidateImageSize` | ai-service/face_recognition_service.py:120-130 | accepts iff 150 <= height <= 4096 and 150 <= width <= 4096 (inclusive); "too small" iff a side is under 150; "too large" iff no side is under 150 and one exceeds 4096 |
| `FaceService.TooSmallWinsOverTooLarge` | ai-service/face_recognition_service.py:122-130 | a 100x5000 image is reported too small; 150x4096 passes; 4097x4096 is too large |
| `FaceService.ValidFaces` | ai-service/face_recognition_service.py:204 | the filter keeps exactly the detections whose confidence (0 when missing) is strictly above 0.9 |
| `FaceService.NoValidFaces` | ai-service/face_recognition_service.py:204-209 | the filter keeps nothing iff no detection is confident |
| `FaceService.OneValidFace` | ai-service/face_recognition_service.py:204-217 | the filter keeps exactly one detection iff exactly one is confident, and then keeps that one |
| `FaceService.SeveralValidFaces` | ai-service/face_recognition_service.py:204-214 | the filter keeps two or more iff two distinct detections are confident |
| `FaceService.WeightedQuality` | ai-service/face_recognition_service.py:161-170 | the weighted score is at most 100 for every input, and at least 0 when sharpness and size share are not negative and brightness is in 0..254 |
| `FaceService.QualityScore` | ai-service/face_recognition_service.py:143-176 | the rounded quality score never exceeds 100 |
| `FaceService.QualityFailureIsNeutral` | ai-service/face_recognition_service.py:174-176 | when the computation raises (the statistics code fails, or the image has zero area for any measured sharpness and brightness), the score is exactly 50.0 |
| `FaceService.QualityScoreNonNegative` | ai-service/face_recognition_service.py:141-172 | the documented lower bound 0 holds when sharpness is not negative, the box is not inverted and mean brightness is at most 254 |
| `FaceService.QualityScoreCanBeNegative` | ai-service/face_recognition_service.py:141-172 | the documented 0..100 range fails at brightness 255: the score is -0.24 for a 1x1 face with zero sharpness in a 400x400 image, and still -0.2 for an 80x80 face in a 4096x4096 image |
| `FaceService.DetectFace` | ai-service/face_recognition_service.py:193-253 | the gate raises only FaceNotDetected, MultipleFaces or LowQuality; a detector failure becomes FaceNotDetected; on success there is exactly one confident detection, its box is returned, both sides are at least 80, and the quality is in 30..100 |
| `FaceService.NoConfidentFaceIsNotDetected` | ai-service/face_recognition_service.py:204-209 | no confident detection gives FaceNotDetected, whatever the boxes and quality are |
| `FaceService.TwoConfidentFacesAreMultiple` | ai-service/face_recognition_service.py:211-214 | two confident detections give MultipleFaces with a count of at least 2, decided before any face-size check |
| `FaceService.SoleFaceGate` | ai-service/face_recognition_service.py:217-243 | with one confident detection: a side under 80 gives LowQuality; otherwise a quality under 30.0 gives LowQuality; otherwise the box and the score are returned |
| `FaceService.RawConfidence` | ai-service/face_recognition_service.py:379 | the clamped confidence is in 0..100; it is 100 at distance <= 0 and 0 at distance >= 1; in between it is `(1 - distance) * 100` |
| `FaceService.Verdict` | ai-service/face_recognition_service.py:373-393 | match iff distance <= 0.40 (inclusive); the reported threshold is 0.40; the reported confidence is in 0..100 and is the clamped confidence rounded to hundredths (within 0.005 of it); the reported similarity is the distance rounded to four places (within 0.00005 of it) |
| `FaceService.ConfidenceNonIncreasing` | ai-service/face_recognition_service.py:379-390 | the reported confidence never rises as the distance grows |
| `FaceService.MatchConfidenceAtLeast60` | ai-service/face_recognition_service.py:374-390 | every match reports a confidence of at least 60; a distance of 0 or less reports 100 |
| `FaceService.RoundedConfidenceAtThreshold` | ai-service/face_recognition_service.py:374-390 | the rounded confidence does not determine the match: distance 0.40001 is no match yet reports 60.0, as distance 0.40 (a match) does |
| `FaceService.GenerateEmbedding` | ai-service/face_recognition_service.py:265-288 | an empty model output becomes FaceNotDetected, a model error passes through, otherwise the first embedding is returned |
| `FaceService.RunGates` | ai-service/face_recognition_service.py:327-333 | load, size check and detect run in that order, and a run stops at its first failure: the size check runs iff the image decodes, detection runs iff it also has an accepted size; an undecodable image gives InvalidImage, a refused size gives LowQuality with the size gate's cause, and a failure after detection is the detection gate's error; success iff every gate passes, and it carries the decoded size and the detected face |
| `FaceService.EnrollFace` | ai-service/face_recognition_service.py:316-345 | stages run in pipeline order; a failed gate ends the run with the gates' stages and error; embedding happens iff every gate passed, and a failed embedding gives its error; each error comes from the last stage run, and is one that this stage can raise; success iff every gate passes and the model returns an embedding, and it carries the model's embedding and the detected face's own quality score, width and height, so a face of at least 80x80 and a quality in 30..100 |
| `FaceService.VerifyFace` | ai-service/face_recognition_service.py:347-394 | as for enrolment; the distance is computed iff the gates passed and an embedding was produced, and a failed distance gives an unexpected error; success iff every gate passes, an embedding is produced and the distance is computed; success means all five stages ran and the result is the verdict on that distance with the detected face's quality: the match is `distance <= 0.40` and the threshold is 0.40 |
| `FaceService.ServiceErrorKinds` | ai-service/face_recognition_service.py:245-288 | an exception other than the four typed ones can only come from the embedding or distance stage |
| `Endpoints.LogSuspiciousActivity` | ai-service/main.py:71-74 | the logger writes an alert only when called with `details=`; any other keyword raises before logging |
| `Endpoints.RejectFileType` | ai-service/main.py:240-249 | as written, the file-type branch raises a TypeError and logs nothing; corrected, it logs one alert and raises 400 "Invalid file type" |
| `Endpoints.EnrollAttempt` | ai-service/main.py:117-143 | the service runs iff the content type is accepted, and then the attempt has the service's stages and logs nothing, returns iff the service succeeds and otherwise raises the service's error; a returned body has `success=true`, `face_detected=true` and the model's embedding |
| `Endpoints.EnrollExcept` | ai-service/main.py:145-197 | at most one alert, and one exactly for the four typed service exceptions; a non-500 error comes only from an HTTP exception or a typed service exception; a normal response from this chain has `success=false`, `face_detected=false` and no embedding |
| `Endpoints.EnrollEndpoint` | ai-service/main.py:117-197 | at most one alert; errors are 400 or 500; `success=true` iff the content type is accepted and the service succeeds, and then `face_detected=true`, the embedding is present and the quality is in 0..100 (within the response model's bounds); the service runs iff the content type is accepted |
| `Endpoints.EnrollOutcomes` | ai-service/main.py:134-197 | success returns the service's embedding with no alert; FaceNotDetected returns `success=false`, no embedding and `face_detected=false` with one alert; the other typed exceptions give 400 with one alert; anything else gives 500 with none |
| `Endpoints.EnrollNonImageAsWritten` | ai-service/main.py:122-131 | as written, a non-image upload to `/enroll` ends in 500 with no alert and no service call |
| `Endpoints.EnrollNonImageKeywordFixAlone` | ai-service/main.py:192-197 | with only the keyword corrected, `/enroll` still answers 500, because the catch-all clause takes the 400 |
| `Endpoints.EnrollNonImageCorrected` | ai-service/main.py:122-131 | corrected, a non-image upload to `/enroll` gets 400 "Invalid file type" and one alert |
| `Endpoints.VerifyAttempt` | ai-service/main.py:218-270 | a missing or empty `stored_embedding` raises 400 "required" before anything else, then one that does not parse raises 400 "format"; the service runs iff the embedding is present, parses and the content type is accepted; an HTTP error raised here is 400 and runs no stage; a returned body has run all five stages, has `success=true`, confidence in 0..100, threshold 0.40, confidence >= 60 on a match, and logs an alert iff no match |
| `Endpoints.VerifyExcept` | ai-service/main.py:272-328 | at most one alert, and one exactly for the four typed service exceptions; a normal response from this chain has `success=false`, `match=false`, confidence 0 and threshold 0.40; its error statuses are 400 or 500 unless an HTTP exception is re-raised |
| `Endpoints.VerifyEndpoint` | ai-service/main.py:218-328 | at most one alert; errors are 400 or 500; confidence is in 0..100 and the threshold is 0.40; `success=true` means all five service stages ran; a match means success, confidence >= 60 and no alert; the service runs only once the embedding is present, parses and the content type is accepted |
| `Endpoints.MissingEmbeddingFirst` | ai-service/main.py:220-224 | a missing or empty `stored_embedding` gives 400 "stored_embedding is required", whatever the parser, upload and service would do; no alert and no service stage |
| `Endpoints.MalformedEmbeddingSecond` | ai-service/main.py:228-234 | a `stored_embedding` that does not parse gives 400 "Invalid stored_embedding format", before the upload is looked at |
| `Endpoints.VerifyOutcomes` | ai-service/main.py:251-328 | a completed verification gives `success=true` with the service's match, confidence and threshold, and an alert iff no match; FaceNotDetected gives `success=false`, `match=false`, confidence 0.0, threshold 0.40; the other typed exceptions give 400; each of those four paths logs one alert; anything else gives 500 and no alert |
| `Endpoints.VerifyNonImageAsWritten` | ai-service/main.py:240-249 | as written, a non-image upload to `/verify` ends in 500 with no alert and no service call |
| `Endpoints.VerifyNonImageCorrected` | ai-service/main.py:240-249 | corrected, a non-image upload to `/verify` gets 400 "Invalid file type" and one alert |

## Findings

| source | as written | input that shows it | evidently intended | confidence | as-written member | corrected member |
|---|---|---|---|---|---|---|
| ai-service/main.py:240-249 | the file-type branch of `/verify` calls `log_suspicious_activity(endpoint, reason, details)` with `content_type=`; the TypeError reaches the catch-all clause and the request ends in 500 with no alert | a present, parseable `stored_embedding` and an upload with content type `text/plain` | 400 "Invalid file type. Only image files are accepted." and one security alert | high; not executed | `Endpoints.VerifyNonImageAsWritten` | `Endpoints.VerifyNonImageCorrected` |
| ai-service/main.py:122-131 | the same wrong keyword in `/enroll` gives 500 with no alert | an upload with no content type, or with `application/pdf` | 400 "Invalid file type" and one security alert | high; not executed | `Endpoints.EnrollNonImageAsWritten` | `Endpoints.EnrollNonImageCorrected` |
| ai-service/main.py:192-197 | `/enroll` has no `except HTTPException` clause, so its catch-all clause turns the 400 raised inside `try` into 500 even once the keyword is fixed | an upload with content type `text/plain`, keyword corrected | the 400 re-raised unchanged, as `/verify` does at lines 320-321 | high; not executed | `Endpoints.EnrollNonImageKeywordFixAlone` | `Endpoints.EnrollNonImageCorrected` |

A related point is not listed above because it changes no outcome. The quality
score is documented as 0..100 (ai-service/face_recognition_service.py:141).
It can be negative when the face crop's mean brightness is 255, as
`FaceService.QualityScoreCanBeNegative` shows. Such a score always fails the
30.0 quality gate, so no `quality_score` field carries it. The 400 detail of
the low-quality error does quote it (for example "score: -0.2/100"), as the
message at ai-service/face_recognition_service.py:233-236 embeds the score.

## Left out

- The face detector, the embedding model and the lazy import in `get_deepface` are not modelled. Their outputs are fields of `ImageProbe`.
- Image decoding, colour conversion and the Laplacian-variance and mean-brightness computations are not modelled. Their results are inputs. The crop offsets `x` and `y` of a face box matter only to that code.
- `_calculate_similarity` is not modelled. The cosine distance is a function parameter, so its floating-point `sqrt` norms and its NaN result on zero vectors are not captured. The symmetry that ai-service/test_service.py:128-137 checks follows from the commutativity of the dot product and is not stated.
- Floats are modelled as exact reals. `round(x, 2)` and `round(x, 4)` are modelled as exact round-half-even, not as rounding of the binary double. A NaN distance (for which the source reports no match with confidence 100) is not representable.
- The internal errors inside `_detect_face` are modelled only for the detector raising. Missing `facial_area`, `w` or `h` keys and a confidence key holding `null` would also become FaceNotDetected, but the model assumes every detection has a box and a number or no confidence at all.
- The exception message texts, the details text of security alerts, the informational and error log lines and the timestamps are not modelled. A response's message is the service error value itself (`ErrorMessage`).
- FastAPI routing, `UploadFile.read`, Pydantic validation and the JSON shape made by the exception handler (ai-service/main.py:332-341) are framework concerns. Instead of modelling the response models' 0..100 bounds, the model proves that the values the handlers pass lie within them. `stored_embedding` is bound as a query parameter while ai-service/example_client.py sends it as form data; this binding is framework behaviour and not modelled.
- `json.loads` is a function parameter. A parsed value that is not a list of numbers affects only the distance computation, which the distance parameter stands for.
- The `/` and `/health` endpoints return fixed fields and a timestamp, make no decision and are not modelled.
- ai-service/example_client.py (an HTTP client), ai-service/startup_patch.py (import-time patching of Keras layers) and ai-service/test_service.py are not part of this model. The tests serve only as evidence for the stated properties.
- The attendance-marking decision flow is not part of this model: the geofence test, the enrolment precondition, the attendance and suspicious-activity records and the orchestration around the biometric call live in other parts of the repository. The model follows the code of the face service, the remote biometric oracle of that flow.
