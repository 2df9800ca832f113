/**
 * `MedicalVerificationService`: local format checks on the uploaded documents,
 * then one question to the AI vision model about the first document, and a
 * shape check on the parsed answer.
 *
 * `isImage` stands for the base64-image predicate the service imports, and
 * `ai` for the whole AI round trip on one image (request, response text
 * extraction and JSON parsing).
 */
module MedicalVerification {
  import opened Wrappers
  import opened Records

  /** The parsed answer before its shape is checked: a field has its expected type or it does not. */
  datatype RawVerdict = RawVerdict(
    isVerified: Option<bool>,
    confidenceScore: Option<real>,
    documentType: string,
    findings: seq<string>,
    reasoning: string,
    redFlags: seq<string>)

  /** How the AI round trip ended: an exception, a falsy parse result, or a parsed object. */
  datatype AiReply = AiThrew | AiNothing | AiParsed(verdict: RawVerdict)

  /** The result of one verification, and the image sent to the AI model, if any was. */
  datatype VerifyRun = VerifyRun(result: Result<VerificationResult>, sent: Option<string>)

  const NoDocuments := Http(400, "No medical documents provided")
  const BadFormat := Http(400, "Invalid image format detected")
  const VerificationError := Http(500, "Error during medical document verification")

  /** Every image passes the format check (the source checks them all, in order). */
  function AllImages(images: seq<string>, isImage: string -> bool): (ok: bool)
    ensures ok <==> forall i :: 0 <= i < |images| ==> isImage(images[i])
  {
    if |images| == 0 then true
    else isImage(images[0]) && AllImages(images[1..], isImage)
  }

  /** The shape check: `isVerified` is a boolean and `confidenceScore` is a number. */
  function ShapeCheck(reply: AiReply): (r: Option<VerificationResult>)
    ensures r.Some? <==> reply.AiParsed? && reply.verdict.isVerified.Some? && reply.verdict.confidenceScore.Some?
    ensures r.Some? ==>
              && r.value.isVerified == reply.verdict.isVerified.value
              && r.value.confidenceScore == reply.verdict.confidenceScore.value
              && r.value.documentType == reply.verdict.documentType
              && r.value.findings == reply.verdict.findings
              && r.value.reasoning == reply.verdict.reasoning
              && r.value.redFlags == reply.verdict.redFlags
  {
    match reply
    case AiParsed(v) =>
      if v.isVerified.Some? && v.confidenceScore.Some? then
        Some(VerificationResult(v.isVerified.value, v.confidenceScore.value, v.documentType,
                                v.findings, v.reasoning, v.redFlags))
      else None
    case _ => None
  }

  /**
   * `verifyMedicalDocuments(images)`. No AI call is made unless there is at
   * least one document and every document passes the format check; then only
   * the first document is sent, and every failure of the AI phase, the shape
   * check included, becomes one 500 error. There is no fallback verdict.
   */
  function VerifyMedicalDocuments(images: seq<string>, isImage: string -> bool, ai: string -> AiReply): (run: VerifyRun)
    ensures |images| == 0 ==> run == VerifyRun(Err(NoDocuments), None)
    ensures |images| > 0 && (exists i :: 0 <= i < |images| && !isImage(images[i])) ==>
              run == VerifyRun(Err(BadFormat), None)
    ensures run.sent.Some? <==> |images| > 0 && forall i :: 0 <= i < |images| ==> isImage(images[i])
    ensures run.sent.Some? ==> run.sent.value == images[0]
    ensures run.sent.Some? ==> (run.result.Ok? <==> ShapeCheck(ai(images[0])).Some?)
    ensures run.sent.Some? && run.result.Err? ==> run.result.failure == VerificationError
    ensures run.result.Ok? ==> run.result.value == ShapeCheck(ai(images[0])).value
  {
    if |images| == 0 then VerifyRun(Err(NoDocuments), None)
    else if !AllImages(images, isImage) then VerifyRun(Err(BadFormat), None)
    else
      var primary := images[0];
      match ShapeCheck(ai(primary))
      case None => VerifyRun(Err(VerificationError), Some(primary))
      case Some(v) => VerifyRun(Ok(v), Some(primary))
  }

  /** Documents after the first never influence the verdict: only `images[0]` is analysed. */
  lemma OnlyFirstImageAnalysed(images: seq<string>, more: seq<string>, isImage: string -> bool,
                               ai1: string -> AiReply, ai2: string -> AiReply)
    requires |images| > 0
    requires forall i :: 0 <= i < |more| ==> isImage(more[i])
    requires ai1(images[0]) == ai2(images[0])
    ensures VerifyMedicalDocuments(images + more, isImage, ai1) == VerifyMedicalDocuments(images, isImage, ai2)
  {
    var all := images + more;
    assert all[0] == images[0];
    assert forall i :: 0 <= i < |images| ==> all[i] == images[i];
    assert (forall i :: 0 <= i < |all| ==> isImage(all[i])) <==> (forall i :: 0 <= i < |images| ==> isImage(images[i])) by {
      if forall i :: 0 <= i < |images| ==> isImage(images[i]) {
        forall i | 0 <= i < |all| ensures isImage(all[i]) {
          if i >= |images| {
            assert all[i] == more[i - |images|];
          }
        }
      }
    }
  }

  /** `quickValidate(image)`: the format check alone. */
  datatype QuickResult = QuickResult(valid: bool, message: string)

  function QuickValidate(image: string, isImage: string -> bool): (r: QuickResult)
    ensures r.valid <==> isImage(image)
    ensures r.valid <==> VerifyMedicalDocuments([image], isImage, _ => AiThrew).sent.Some?
    ensures r.message == if r.valid then "Document format valid" else "Invalid image format"
  {
    if !isImage(image) then QuickResult(false, "Invalid image format")
    else QuickResult(true, "Document format valid")
  }
}
