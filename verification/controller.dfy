/**
 * `CampaignController`: the HTTP handlers. The campaign creation workflow runs
 * validate, AI-verify, pin the evidence, create on the ledger and, when the AI
 * verdict is confident enough, verify on the ledger. Each external call it makes
 * is recorded, in order, in the run it returns.
 */
module CampaignController {
  import opened Wrappers
  import opened Text
  import opened Records
  import opened Seqs
  import opened Validation
  import opened MedicalVerification
  import opened ChainWrites
  import opened Registry
  import opened Numbers

  /** The bundle pinned to IPFS for a new campaign. */
  datatype EvidenceBundle = EvidenceBundle(
    documents: seq<string>,
    verificationResult: VerificationResult,
    campaignTitle: string,
    creator: string,
    timestamp: int)

  /** The pin's name and key/value tags (all values strings). */
  datatype PinMetadata = PinMetadata(name: string, kind: string, creator: string, verified: string, confidenceScore: string)

  /** An external call the creation workflow makes. */
  datatype Call =
    | AskAi(image: string)
    | Pin(bundle: EvidenceBundle, meta: PinMetadata)
    | ChainCreate(args: CreateArgs)
    | ChainVerify(campaignId: int)

  /** Where each call stands in the fixed order of the workflow. */
  function Stage(c: Call): (n: nat)
    ensures n == 0 <==> c.AskAi?
    ensures n == 1 <==> c.Pin?
    ensures n == 2 <==> c.ChainCreate?
    ensures n == 3 <==> c.ChainVerify?
  {
    match c
    case AskAi(_) => 0
    case Pin(_, _) => 1
    case ChainCreate(_) => 2
    case ChainVerify(_) => 3
  }

  /**
   * Everything the workflow consults outside itself: the image check, the AI
   * round trip, the IPFS upload, the ledger creation, `parseFloat`,
   * `Number.prototype.toString`, and `Date.now()`. The ledger verify call is
   * recorded but not consulted: its answer never reaches the response.
   */
  datatype Services = Services(
    isImage: string -> bool,
    ai: string -> AiReply,
    pin: (EvidenceBundle, PinMetadata) -> Attempt<string>,
    create: CreateArgs -> Attempt<Receipt>,
    parseFloat: string -> Option<real>,
    showNumber: real -> string,
    nowMs: int)

  /** The `201` response: the payload and the transaction id. */
  datatype Created = Created(data: CampaignVerificationResult, txId: Option<string>)

  datatype CreateRun = CreateRun(outcome: Result<Created>, calls: seq<Call>)

  /** Confidence at which the ledger's verify operation is called. */
  const AutoVerifyThreshold: real := 0.6
  /** Confidence at which the response reports the campaign as verified. */
  const ReportVerifiedThreshold: real := 0.8

  const PinPrefix := "vecare-campaign-"
  const PinTitleLength := 30

  /** `"vecare-campaign-" + title.substring(0, 30)`. */
  function PinName(title: string): (name: string)
    ensures |name| >= |PinPrefix| && name[..|PinPrefix|] == PinPrefix
    ensures name[|PinPrefix|..] <= title
    ensures |name| - |PinPrefix| == Min(PinTitleLength, |title|)
  {
    PinPrefix + Prefix(title, PinTitleLength)
  }

  function ShowBool(b: bool): string {
    if b then "true" else "false"
  }

  function CreationMetadata(req: CreateCampaignRequest, v: VerificationResult, s: Services): PinMetadata {
    PinMetadata(PinName(req.title), "medical-campaign", req.creatorAddress,
                ShowBool(v.isVerified), s.showNumber(v.confidenceScore))
  }

  /** The gate for the ledger verify call: a verified verdict, confidence at least 0.6, a truthy id. */
  predicate AutoVerifies(v: VerificationResult, id: CampaignIdValue) {
    v.isVerified && v.confidenceScore >= AutoVerifyThreshold && IsTruthyId(id)
  }

  /** The `isVerified` flag the response reports. */
  predicate ReportsVerified(v: VerificationResult) {
    v.isVerified && v.confidenceScore >= ReportVerifiedThreshold
  }

  function Details(v: VerificationResult): VerificationDetails {
    VerificationDetails(v.confidenceScore, v.documentType, v.findings, v.reasoning, v.redFlags)
  }

  /** The calls come in the workflow's order, each at most once, the first being stage `k`. */
  predicate InOrderFrom(calls: seq<Call>, k: nat) {
    forall i :: 0 <= i < |calls| ==> Stage(calls[i]) == k + i
  }

  /** The external calls of a run come in the workflow's order, each at most once. */
  predicate InWorkflowOrder(calls: seq<Call>) {
    InOrderFrom(calls, 0)
  }

  lemma PrependInOrder(c: Call, rest: seq<Call>, k: nat)
    requires Stage(c) == k && InOrderFrom(rest, k + 1)
    ensures InOrderFrom([c] + rest, k)
  {
    assert forall i :: 1 <= i < |rest| + 1 ==> ([c] + rest)[i] == rest[i - 1];
  }

  /**
   * The last stage, once the ledger has answered the creation: on success the
   * verify call is made when the gate holds, and its answer is ignored.
   */
  function AfterCreation(v: VerificationResult, answer: Result<CreateOutcome>): (run: CreateRun)
    ensures InOrderFrom(run.calls, 3) && |run.calls| <= 1
    ensures |run.calls| == 1 <==> answer.Ok? && answer.value.success && AutoVerifies(v, answer.value.campaignId)
    ensures |run.calls| == 1 ==> answer.value.campaignId == Some(Int(run.calls[0].campaignId))
    ensures run.outcome.Ok? <==> answer.Ok? && answer.value.success
    ensures run.outcome.Ok? ==>
              run.outcome.value.data == CampaignVerificationResult(answer.value.campaignId, ReportsVerified(v), Details(v))
    ensures run.outcome.Ok? ==> run.outcome.value.txId == answer.value.txId
    ensures run.outcome.Err? ==> run.outcome.failure == CreateFailed || (answer.Err? && run.outcome.failure == answer.failure)
  {
    match answer
    case Err(f) => CreateRun(Err(f), [])
    case Ok(out) =>
      if !out.success then CreateRun(Err(CreateFailed), [])
      else
        // The verify call's answer is only logged; it never changes the response.
        var calls := if AutoVerifies(v, out.campaignId) then [ChainVerify(out.campaignId.value.value)] else [];
        var data := CampaignVerificationResult(out.campaignId, ReportsVerified(v), Details(v));
        CreateRun(Ok(Created(data, out.txId)), calls)
  }

  /** The arguments of the ledger creation: the request's fields, with the pinned evidence's content id as the document hash. */
  function ChainArgs(req: CreateCampaignRequest, cid: string): CreateArgs {
    CreateArgs(req.title, req.description, cid, req.goalAmount, req.durationDays)
  }

  /** From a successful pin on: the ledger creation, then the last stage. */
  function AfterPin(req: CreateCampaignRequest, v: VerificationResult, cid: string, s: Services): (run: CreateRun)
    ensures InOrderFrom(run.calls, 2) && 1 <= |run.calls| <= 2
    ensures run.calls[0] == ChainCreate(ChainArgs(req, cid))
    ensures run == var last := AfterCreation(v, ChainWrites.CreateCampaign(s.create(ChainArgs(req, cid))));
                   CreateRun(last.outcome, [run.calls[0]] + last.calls)
  {
    var args := ChainArgs(req, cid);
    var last := AfterCreation(v, ChainWrites.CreateCampaign(s.create(args)));
    PrependInOrder(ChainCreate(args), last.calls, 2);
    CreateRun(last.outcome, [ChainCreate(args)] + last.calls)
  }

  function Bundle(req: CreateCampaignRequest, v: VerificationResult, s: Services): EvidenceBundle {
    EvidenceBundle(req.medicalDocuments, v, req.title, req.creatorAddress, s.nowMs)
  }

  /** From an accepted AI verdict on: the pin, then the ledger stages. A pin that throws ends the run. */
  function AfterVerdict(req: CreateCampaignRequest, v: VerificationResult, s: Services): (run: CreateRun)
    ensures InOrderFrom(run.calls, 1) && 1 <= |run.calls| <= 3
    ensures run.calls[0] == Pin(Bundle(req, v, s), CreationMetadata(req, v, s))
    ensures s.pin(Bundle(req, v, s), CreationMetadata(req, v, s)).Threw? ==>
              run == CreateRun(Err(Unclassified), [run.calls[0]])
    ensures s.pin(Bundle(req, v, s), CreationMetadata(req, v, s)).Done? ==>
              var rest := AfterPin(req, v, s.pin(Bundle(req, v, s), CreationMetadata(req, v, s)).value, s);
              run == CreateRun(rest.outcome, [run.calls[0]] + rest.calls)
  {
    var bundle := Bundle(req, v, s);
    var meta := CreationMetadata(req, v, s);
    match s.pin(bundle, meta)
    case Threw => CreateRun(Err(Unclassified), [Pin(bundle, meta)])
    case Done(cid) =>
      var rest := AfterPin(req, v, cid, s);
      PrependInOrder(Pin(bundle, meta), rest.calls, 1);
      CreateRun(rest.outcome, [Pin(bundle, meta)] + rest.calls)
  }

  /** From an accepted validation on: the AI check of the documents, then the later stages. */
  function AfterValidation(req: CreateCampaignRequest, s: Services): (run: CreateRun)
    ensures InWorkflowOrder(run.calls) && |run.calls| <= 4
    ensures var check := VerifyMedicalDocuments(req.medicalDocuments, s.isImage, s.ai);
            |run.calls| >= 1 <==> check.sent.Some?
    ensures |run.calls| >= 1 ==> run.calls[0] == AskAi(req.medicalDocuments[0])
    ensures var check := VerifyMedicalDocuments(req.medicalDocuments, s.isImage, s.ai);
            check.result.Err? ==> run.outcome == Err(check.result.failure) && |run.calls| <= 1
    ensures var check := VerifyMedicalDocuments(req.medicalDocuments, s.isImage, s.ai);
            check.result.Ok? ==>
              var rest := AfterVerdict(req, check.result.value, s);
              run == CreateRun(rest.outcome, [run.calls[0]] + rest.calls)
  {
    var check := VerifyMedicalDocuments(req.medicalDocuments, s.isImage, s.ai);
    match check.result
    case Err(f) => CreateRun(Err(f), if check.sent.Some? then [AskAi(check.sent.value)] else [])
    case Ok(v) =>
      var rest := AfterVerdict(req, v, s);
      PrependInOrder(AskAi(check.sent.value), rest.calls, 0);
      CreateRun(rest.outcome, [AskAi(check.sent.value)] + rest.calls)
  }

  /**
   * `POST /campaigns` once the request has passed the DTO check: validate,
   * AI-verify the documents, pin the evidence, create on the ledger, and verify
   * on the ledger when the gate holds. Any failure ends the run at once.
   */
  function CreateCampaign(req: CreateCampaignRequest, s: Services): (run: CreateRun)
    ensures InWorkflowOrder(run.calls)
    ensures run.outcome.Ok? ==> |run.calls| >= 3
  {
    match ValidateCampaignParams(req.title, req.description, s.parseFloat(req.goalAmount), req.durationDays)
    case Rejected(e) => CreateRun(Err(ParamFailure(e)), [])
    case Accepted => AfterValidation(req, s)
  }

  function GoalOf(req: CreateCampaignRequest, s: Services): Option<real> {
    s.parseFloat(req.goalAmount)
  }

  /** A request the service validation refuses makes no external call and fails with that refusal's 400. */
  lemma ValidationFailsFirst(req: CreateCampaignRequest, s: Services)
    requires ValidateCampaignParams(req.title, req.description, GoalOf(req, s), req.durationDays).Rejected?
    ensures CreateCampaign(req, s).calls == []
    ensures CreateCampaign(req, s).outcome ==
              Err(ParamFailure(ValidateCampaignParams(req.title, req.description, GoalOf(req, s), req.durationDays).reason))
    ensures CreateCampaign(req, s).outcome.failure.status == 400
  {
  }

  /**
   * Each later step runs only when every earlier one succeeded: the AI is asked
   * about the first document only after validation passed, nothing is pinned
   * unless the AI verdict passed its shape check, the pinned bundle carries that
   * verdict and all the documents, and the ledger record references exactly the
   * content id the pin returned.
   */
  lemma LaterStepsNeedEarlierSuccess(req: CreateCampaignRequest, s: Services)
    ensures var run := CreateCampaign(req, s);
            |run.calls| >= 1 ==>
              ValidateCampaignParams(req.title, req.description, GoalOf(req, s), req.durationDays) == Accepted
              && run.calls[0] == AskAi(req.medicalDocuments[0])
    ensures var run := CreateCampaign(req, s);
            var check := VerifyMedicalDocuments(req.medicalDocuments, s.isImage, s.ai);
            |run.calls| >= 2 ==>
              check.result.Ok?
              && run.calls[1].bundle.verificationResult == check.result.value
              && run.calls[1].bundle.documents == req.medicalDocuments
    ensures var run := CreateCampaign(req, s);
            |run.calls| >= 3 ==>
              s.pin(run.calls[1].bundle, run.calls[1].meta).Done?
              && run.calls[2].args.medicalDocumentHash == s.pin(run.calls[1].bundle, run.calls[1].meta).value
  {
    var run := CreateCampaign(req, s);
    if |run.calls| >= 1 {
      assert run == AfterValidation(req, s);
    }
    if |run.calls| >= 3 {
      var v, cid := ReachedCreation(req, s);
    } else if |run.calls| == 2 {
      var check := VerifyMedicalDocuments(req.medicalDocuments, s.isImage, s.ai);
      assert run.calls[1..] == AfterVerdict(req, check.result.value, s).calls;
    }
  }

  /**
   * A ledger creation that reverts or throws fails the request with a 500,
   * and the verify operation is never attempted; the pinned evidence stays pinned.
   */
  lemma FailedCreationStops(req: CreateCampaignRequest, s: Services)
    requires |CreateCampaign(req, s).calls| >= 3
    requires var tx := s.create(CreateCampaign(req, s).calls[2].args);
             tx.Threw? || tx.value.reverted
    ensures CreateCampaign(req, s).outcome == Err(CreateFailed)
    ensures |CreateCampaign(req, s).calls| == 3
  {
    var v, cid := ReachedCreation(req, s);
  }

  /**
   * A run that got as far as the ledger creation: the verdict it pinned, the
   * content id the pin returned, and the last stage it then ran.
   */
  lemma ReachedCreation(req: CreateCampaignRequest, s: Services) returns (v: VerificationResult, cid: string)
    requires |CreateCampaign(req, s).calls| >= 3
    ensures var run := CreateCampaign(req, s);
            var last := AfterCreation(v, ChainWrites.CreateCampaign(s.create(ChainArgs(req, cid))));
            && VerifyMedicalDocuments(req.medicalDocuments, s.isImage, s.ai).result == Ok(v)
            && s.pin(Bundle(req, v, s), CreationMetadata(req, v, s)) == Done(cid)
            && run.calls[1] == Pin(Bundle(req, v, s), CreationMetadata(req, v, s))
            && run.calls[2] == ChainCreate(ChainArgs(req, cid))
            && run.calls[3..] == last.calls
            && run.outcome == last.outcome
  {
    PastValidation(req, s);
    var check := VerifyMedicalDocuments(req.medicalDocuments, s.isImage, s.ai);
    v := check.result.value;
    cid := PastVerdict(req, v, s);
    assert CreateCampaign(req, s).calls[1..] == AfterVerdict(req, v, s).calls;
  }

  /** A run with at least three calls got past validation and the AI check, and was accepted by both. */
  lemma PastValidation(req: CreateCampaignRequest, s: Services)
    requires |CreateCampaign(req, s).calls| >= 3
    ensures var check := VerifyMedicalDocuments(req.medicalDocuments, s.isImage, s.ai);
            && check.result.Ok?
            && var rest := AfterVerdict(req, check.result.value, s);
               CreateCampaign(req, s) == CreateRun(rest.outcome, [AskAi(req.medicalDocuments[0])] + rest.calls)
  {
    assert CreateCampaign(req, s) == AfterValidation(req, s);
  }

  /** From the verdict on, a run with at least two calls got a content id from the pin. */
  lemma PastVerdict(req: CreateCampaignRequest, v: VerificationResult, s: Services) returns (cid: string)
    requires |AfterVerdict(req, v, s).calls| >= 2
    ensures var run := AfterVerdict(req, v, s);
            var last := AfterCreation(v, ChainWrites.CreateCampaign(s.create(ChainArgs(req, cid))));
            && s.pin(Bundle(req, v, s), CreationMetadata(req, v, s)) == Done(cid)
            && run.calls[0] == Pin(Bundle(req, v, s), CreationMetadata(req, v, s))
            && run.calls[1] == ChainCreate(ChainArgs(req, cid))
            && run.calls[2..] == last.calls
            && run.outcome == last.outcome
  {
    var pinned := s.pin(Bundle(req, v, s), CreationMetadata(req, v, s));
    cid := pinned.value;
    assert AfterVerdict(req, v, s).calls[1..] == AfterPin(req, v, cid, s).calls;
  }

  /**
   * The ledger verify call happens exactly when the ledger creation succeeded,
   * the AI verdict is verified with confidence at least 0.6, and the recovered
   * id is truthy; it is then made with that id.
   */
  lemma AutoVerifyGate(req: CreateCampaignRequest, s: Services)
    ensures var run := CreateCampaign(req, s);
            |run.calls| == 4 <==>
              && |run.calls| >= 3
              && var out := ChainWrites.CreateCampaign(s.create(run.calls[2].args));
                 && out.Ok? && out.value.success
                 && AutoVerifies(run.calls[1].bundle.verificationResult, out.value.campaignId)
    ensures var run := CreateCampaign(req, s);
            |run.calls| == 4 ==>
              ChainWrites.CreateCampaign(s.create(run.calls[2].args)).value.campaignId
                == Some(Int(run.calls[3].campaignId))
              && run.calls[3].campaignId != 0
  {
    var run := CreateCampaign(req, s);
    if |run.calls| >= 3 {
      var v, cid := ReachedCreation(req, s);
    }
  }

  /**
   * A successful run reports `isVerified` as the AI verdict with confidence at
   * least 0.8, whether or not the ledger verify call was made.
   */
  lemma ReportedFlag(req: CreateCampaignRequest, s: Services)
    requires CreateCampaign(req, s).outcome.Ok?
    ensures var run := CreateCampaign(req, s);
            var v := run.calls[1].bundle.verificationResult;
            run.outcome.value.data.isVerified == (v.isVerified && v.confidenceScore >= 0.8)
  {
    var v, cid := ReachedCreation(req, s);
  }

  /** The two thresholds differ: a verdict at confidence 0.65 is verified on the ledger but not reported as verified. */
  lemma DualThreshold(v: VerificationResult, id: int)
    requires v.isVerified && v.confidenceScore == 0.65 && id != 0
    ensures AutoVerifies(v, Some(Int(id))) && !ReportsVerified(v)
  {
  }

  // ---------------------------------------------------------------------------
  // Read handlers

  const InvalidId := Http(400, "Invalid campaign ID")

  /** `GET /campaigns/:id`: `NaN` gives 400, a `null` campaign 404. */
  function GetCampaignHandler(id: IntParse, reg: Ledger): (r: Result<Campaign>)
    ensures id.NaN? <==> r == Err(InvalidId)
    ensures id.Int? ==> (r == Err(Http(404, "Campaign not found")) <==> GetCampaign(reg, id.value).None?)
    ensures r.Ok? ==> id.Int? && ReadOf(reg, id.value) == Row(r.value)
  {
    match id
    case NaN => Err(InvalidId)
    case Int(n) =>
      match GetCampaign(reg, n)
      case None => Err(Http(404, "Campaign not found"))
      case Some(c) => Ok(c)
  }

  /** `parseInt(q) || fallback`. */
  function OrDefault(q: IntParse, fallback: int): int {
    if IsTruthyInt(q) then q.value else fallback
  }

  datatype Page = Page(page: int, limit: int, startId: int)

  const DefaultLimit := 20

  /** The `page`/`limit` query parameters of `GET /campaigns`, after `parseInt`. */
  function Pagination(pageQ: IntParse, limitQ: IntParse): (p: Page)
    ensures p.page == (if IsTruthyInt(pageQ) then pageQ.value else 1)
    ensures p.limit == (if IsTruthyInt(limitQ) then limitQ.value else DefaultLimit)
    ensures p.page != 0 && p.limit != 0
    ensures p.startId == StartId(p.page, p.limit)
    ensures p.page >= 1 && p.limit >= 1 ==> p.startId >= 1
  {
    var page := OrDefault(pageQ, 1);
    var limit := OrDefault(limitQ, DefaultLimit);
    if page >= 1 && limit >= 1 then
      MulMonotone(0, page - 1, limit);
      Page(page, limit, StartId(page, limit))
    else Page(page, limit, StartId(page, limit))
  }

  /** The first id of a page: `(page - 1) * limit + 1`. */
  function StartId(page: int, limit: int): int {
    (page - 1) * limit + 1
  }

  /**
   * With a positive limit, the pages tile the ids: page `p + 1` starts right
   * after page `p` ends, and every id `>= 1` lies in the window of exactly one
   * page `>= 1`, page `(id - 1) / limit + 1`.
   */
  lemma PagesTile(id: int, limit: int)
    requires id >= 1 && limit >= 1
    ensures forall p :: StartId(p + 1, limit) == StartId(p, limit) + limit
    ensures var p := (id - 1) / limit + 1;
            p >= 1 && StartId(p, limit) <= id < StartId(p, limit) + limit
    ensures forall q :: q >= 1 && StartId(q, limit) <= id < StartId(q, limit) + limit ==> q == (id - 1) / limit + 1
  {
    forall p ensures StartId(p + 1, limit) == StartId(p, limit) + limit {
      MulAddOne(p - 1, limit);
    }
    QuotientWindow(id - 1, limit);
    forall q | q >= 1 && StartId(q, limit) <= id < StartId(q, limit) + limit
      ensures q == (id - 1) / limit + 1
    {
      DivUnique(id - 1, limit, q - 1, (id - 1) - (q - 1) * limit);
    }
  }

  datatype Listing = Listing(data: seq<Campaign>, page: int, limit: int, count: int)

  /** `GET /campaigns`: the page window of the listing, with its parameters and count. */
  method ListCampaigns(pageQ: IntParse, limitQ: IntParse, reg: Ledger) returns (r: Listing, queried: seq<int>)
    ensures var p := Pagination(pageQ, limitQ);
            r.page == p.page && r.limit == p.limit && r.count == |r.data|
    ensures var p := Pagination(pageQ, limitQ);
            forall k :: 0 <= k < |queried| ==> queried[k] == p.startId + k
    ensures reg.counter.Row? ==> forall k :: 0 <= k < |queried| ==> queried[k] <= reg.counter.value
    ensures r.data == Present(reg, queried)
    ensures var p := Pagination(pageQ, limitQ);
            reg.counter.Row? ==> queried == IdRange(p.startId, EndId(p.startId, p.limit, reg.counter.value))
    ensures !reg.counter.Row? ==> queried == [] && r.data == []
    ensures |r.data| <= Max(0, r.limit)
  {
    var p := Pagination(pageQ, limitQ);
    var campaigns;
    campaigns, queried := GetAllCampaigns(reg, p.startId, p.limit);
    r := Listing(campaigns, p.page, p.limit, |campaigns|);
  }

  /** `GET /creators/:address`: 400 for an empty address, 404 for no profile or one that does not exist. */
  function CreatorProfileHandler(address: string, read: ReadOutcome<CreatorProfile>): (r: Result<CreatorProfile>)
    ensures |address| == 0 ==> r == Err(Http(400, "Creator address is required"))
    ensures r.Ok? <==> |address| > 0 && read.Row? && read.value.profileExists
    ensures r.Ok? ==> r.value == read.value
    ensures |address| > 0 && !r.Ok? ==> r == Err(Http(404, "Creator profile not found"))
  {
    if |address| == 0 then Err(Http(400, "Creator address is required"))
    else match GetCreatorProfile(read)
      case None => Err(Http(404, "Creator profile not found"))
      case Some(p) => if !p.profileExists then Err(Http(404, "Creator profile not found")) else Ok(p)
  }

  datatype DonationData = DonationData(campaignId: int, donorAddress: string, amount: string)

  /** `GET /campaigns/:campaignId/donations/:donorAddress`. */
  function DonationHandler(campaignId: IntParse, donor: string, read: ReadOutcome<string>): (r: Result<DonationData>)
    ensures r.Err? <==> campaignId.NaN? || |donor| == 0
    ensures r.Err? ==> r.failure == Http(400, "Invalid parameters")
    ensures r.Ok? ==> r.value.campaignId == campaignId.value && r.value.donorAddress == donor
    ensures r.Ok? ==> r.value.amount == (if read.Row? then read.value else "0")
  {
    if campaignId.NaN? || |donor| == 0 then Err(Http(400, "Invalid parameters"))
    else Ok(DonationData(campaignId.value, donor, GetDonation(read)))
  }

  datatype GoalData = GoalData(campaignId: int, goalReached: bool)

  /** `GET /campaigns/:id/goal-reached`: the id echoed with the ledger's answer. */
  function GoalReachedHandler(id: IntParse, read: ReadOutcome<bool>): (r: Result<GoalData>)
    ensures id.NaN? <==> r == Err(InvalidId)
    ensures r.Ok? ==> r.value.campaignId == id.value
    ensures r.Ok? ==> (r.value.goalReached <==> read == Row(true))
  {
    if id.NaN? then Err(InvalidId) else Ok(GoalData(id.value, IsGoalReached(read)))
  }

  datatype UpdatesData = UpdatesData(campaignId: int, updateCount: IntParse)

  /**
   * `GET /campaigns/:id/updates`: the id echoed with the count, which is `0`
   * when the read threw and `NaN` when it came back empty.
   */
  function UpdatesHandler(id: IntParse, read: ReadOutcome<int>): (r: Result<UpdatesData>)
    ensures id.NaN? <==> r == Err(InvalidId)
    ensures r.Ok? ==> r.value.campaignId == id.value
    ensures r.Ok? && read.ReadThrew? ==> r.value.updateCount == Int(0)
    ensures r.Ok? && read.ReadEmpty? ==> r.value.updateCount == NaN
    ensures r.Ok? && read.Row? ==> r.value.updateCount == Int(read.value)
  {
    if id.NaN? then Err(InvalidId) else Ok(UpdatesData(id.value, GetCampaignUpdateCount(read)))
  }

  /**
   * The id-based handlers refuse the same ids with the same 400: exactly the
   * unparsable ones. The manual verify refuses those and the non-positive ones too.
   */
  lemma IdChecksAgree(id: IntParse, reg: Ledger, goal: ReadOutcome<bool>, updates: ReadOutcome<int>,
                      verify: int -> Attempt<Receipt>)
    ensures GetCampaignHandler(id, reg) == Err(InvalidId) <==> GoalReachedHandler(id, goal) == Err(InvalidId)
    ensures GoalReachedHandler(id, goal) == Err(InvalidId) <==> UpdatesHandler(id, updates) == Err(InvalidId)
    ensures GetCampaignHandler(id, reg) == Err(InvalidId) ==> VerifyOnChainHandler(id, verify) == Err(InvalidId)
    ensures VerifyOnChainHandler(id, verify) == Err(InvalidId) <==>
              GetCampaignHandler(id, reg) == Err(InvalidId) || id.value <= 0
  {
  }

  /**
   * The single read and the listing agree: a campaign `GET /campaigns/:id`
   * returns is in every page whose window covers that id.
   */
  lemma FoundIsListed(reg: Ledger, n: int, pageQ: IntParse, limitQ: IntParse)
    requires reg.counter.Row?
    requires var p := Pagination(pageQ, limitQ);
             p.startId <= n <= EndId(p.startId, p.limit, reg.counter.value)
    requires GetCampaignHandler(Int(n), reg).Ok?
    ensures var p := Pagination(pageQ, limitQ);
            GetCampaignHandler(Int(n), reg).value
              in Present(reg, IdRange(p.startId, EndId(p.startId, p.limit, reg.counter.value)))
  {
    var p := Pagination(pageQ, limitQ);
    var ids := IdRange(p.startId, EndId(p.startId, p.limit, reg.counter.value));
    var c := GetCampaignHandler(Int(n), reg).value;
    assert ids[n - p.startId] == n;
    PresentMembership(reg, ids, c);
  }

  /**
   * `POST /verify-documents`: a missing, non-array or empty list is refused
   * with 400 before the verification service sees it.
   */
  function VerifyDocumentsHandler(documents: Option<seq<string>>, isImage: string -> bool, ai: string -> AiReply)
    : (run: VerifyRun)
    ensures documents.None? || |documents.value| == 0 ==>
              run == VerifyRun(Err(Http(400, "Medical documents are required")), None)
    ensures documents.Some? && |documents.value| > 0 ==>
              run == VerifyMedicalDocuments(documents.value, isImage, ai)
  {
    if documents.None? || |documents.value| == 0 then VerifyRun(Err(Http(400, "Medical documents are required")), None)
    else VerifyMedicalDocuments(documents.value, isImage, ai)
  }

  /** `POST /campaigns/:id/verify`: `NaN` or a non-positive id gives 400, a failed verify 500. */
  function VerifyOnChainHandler(id: IntParse, verify: int -> Attempt<Receipt>): (r: Result<int>)
    ensures r == Err(InvalidId) <==> id.NaN? || id.value <= 0
    ensures r.Ok? <==> id.Int? && id.value > 0 && VerifyCampaign(verify(id.value))
    ensures r.Ok? ==> r.value == id.value
    ensures id.Int? && id.value > 0 && !r.Ok? ==> r == Err(Http(500, "Failed to verify campaign on blockchain"))
  {
    if id.NaN? || id.value <= 0 then Err(InvalidId)
    else if VerifyCampaign(verify(id.value)) then Ok(id.value)
    else Err(Http(500, "Failed to verify campaign on blockchain"))
  }

  // ---------------------------------------------------------------------------
  // `POST /campaigns/ipfs`

  /** The verdict fields the IPFS helper reads from its untyped body. */
  datatype VerdictFields = VerdictFields(isVerified: Option<bool>, confidenceScore: Option<real>)

  datatype UploadBody = UploadBody(
    documents: Option<seq<string>>,
    verificationResult: Option<VerdictFields>,
    campaignTitle: Option<string>,
    creator: Option<string>,
    timestamp: Option<int>)

  datatype UploadBundle = UploadBundle(
    documents: seq<string>,
    verificationResult: Option<VerdictFields>,
    campaignTitle: Option<string>,
    creator: Option<string>,
    timestamp: int)

  /** The pin metadata the helper builds, with its fallbacks. */
  function UploadMetadata(body: UploadBody, showNumber: real -> string): (m: PinMetadata)
    ensures !IsTruthyString(body.campaignTitle) ==> m.name == PinPrefix + "untitled"
    ensures IsTruthyString(body.campaignTitle) ==> m.name == PinName(body.campaignTitle.value)
    ensures m.creator == if IsTruthyString(body.creator) then body.creator.value else "unknown"
    ensures m.verified == "true" <==>
              body.verificationResult.Some? && body.verificationResult.value.isVerified == Some(true)
    ensures m.verified != "true" ==> m.verified == "false"
    ensures body.verificationResult.None? || body.verificationResult.value.confidenceScore.None? ==>
              m.confidenceScore == "0"
    ensures body.verificationResult.Some? && body.verificationResult.value.confidenceScore.Some? ==>
              m.confidenceScore == OrElse(Some(showNumber(body.verificationResult.value.confidenceScore.value)), "0")
    ensures m.kind == "medical-campaign"
  {
    var title := if body.campaignTitle.Some? then Some(Prefix(body.campaignTitle.value, PinTitleLength)) else None;
    var verified :=
      if body.verificationResult.Some? && body.verificationResult.value.isVerified.Some?
      then Some(ShowBool(body.verificationResult.value.isVerified.value)) else None;
    var score :=
      if body.verificationResult.Some? && body.verificationResult.value.confidenceScore.Some?
      then Some(showNumber(body.verificationResult.value.confidenceScore.value)) else None;
    PinMetadata(PinPrefix + OrElse(title, "untitled"), "medical-campaign", OrElse(body.creator, "unknown"),
                OrElse(verified, "false"), OrElse(score, "0"))
  }

  /**
   * The helper and the creation workflow tag a pin alike: given the request's
   * title and creator and the verdict, the helper builds the workflow's
   * metadata exactly when the creator is non-empty (the helper turns an empty
   * creator into "unknown").
   */
  lemma UploadMatchesCreation(req: CreateCampaignRequest, v: VerificationResult, s: Services)
    requires |req.title| > 0 && |s.showNumber(v.confidenceScore)| > 0
    ensures var body := UploadBody(Some(req.medicalDocuments), Some(VerdictFields(Some(v.isVerified), Some(v.confidenceScore))),
                                   Some(req.title), Some(req.creatorAddress), Some(s.nowMs));
            UploadMetadata(body, s.showNumber) == CreationMetadata(req, v, s) <==> |req.creatorAddress| > 0
  {
    var body := UploadBody(Some(req.medicalDocuments), Some(VerdictFields(Some(v.isVerified), Some(v.confidenceScore))),
                           Some(req.title), Some(req.creatorAddress), Some(s.nowMs));
    var m := UploadMetadata(body, s.showNumber);
    assert m.name == PinName(req.title);
    if |req.creatorAddress| == 0 {
      assert m.creator == "unknown";
    }
  }

  /**
   * The upload helper: 400 without a documents array (an empty array is
   * accepted), otherwise one pin; a falsy timestamp is replaced by `now`.
   */
  function UploadHandler(body: UploadBody, pin: (UploadBundle, PinMetadata) -> Attempt<string>,
                         showNumber: real -> string, nowMs: int): (r: Result<string>)
    ensures body.documents.None? <==> r == Err(Http(400, "Documents are required"))
    ensures body.documents.Some? ==>
              var ts := if body.timestamp.Some? && body.timestamp.value != 0 then body.timestamp.value else nowMs;
              var bundle := UploadBundle(body.documents.value, body.verificationResult, body.campaignTitle, body.creator, ts);
              match pin(bundle, UploadMetadata(body, showNumber))
              case Done(cid) => r == Ok(cid)
              case Threw => r == Err(Unclassified)
  {
    if body.documents.None? then Err(Http(400, "Documents are required"))
    else
      var ts := if body.timestamp.Some? && body.timestamp.value != 0 then body.timestamp.value else nowMs;
      var bundle := UploadBundle(body.documents.value, body.verificationResult, body.campaignTitle, body.creator, ts);
      match pin(bundle, UploadMetadata(body, showNumber))
      case Done(cid) => Ok(cid)
      case Threw => Err(Unclassified)
  }
}
