/**
 * Checks a campaign creation request passes before anything external is called:
 * the declarative DTO bounds enforced by the validation middleware on
 * `POST /campaigns`, and the service's own pre-flight checks
 * (`validateCampaignParams`).
 */
module Validation {
  import opened Wrappers
  import opened Text
  import opened Records

  /** A JSON value as it arrives in a request body. */
  datatype Json = JNull | JBool(b: bool) | JNum(n: real) | JStr(s: string) | JArr(items: seq<Json>)

  /** A request body: the fields present, by name (an absent key is `undefined`). */
  type Body = map<string, Json>

  predicate IsStr(body: Body, key: string) {
    key in body && body[key].JStr?
  }

  predicate IsNum(body: Body, key: string) {
    key in body && body[key].JNum?
  }

  /** `@IsString() @MinLength(lo) @MaxLength(hi)` on `key`. */
  predicate IsStrOfLength(body: Body, key: string, lo: nat, hi: nat) {
    IsStr(body, key) && lo <= |body[key].s| <= hi
  }

  /** `@IsArray() @IsString({ each: true })` on `key`. */
  predicate IsStrArray(body: Body, key: string) {
    key in body && body[key].JArr?
    && forall i :: 0 <= i < |body[key].items| ==> body[key].items[i].JStr?
  }

  function Strings(items: seq<Json>): (r: seq<string>)
    requires forall i :: 0 <= i < |items| ==> items[i].JStr?
    ensures |r| == |items| && forall i :: 0 <= i < |items| ==> r[i] == items[i].s
  {
    if |items| == 0 then [] else [items[0].s] + Strings(items[1..])
  }

  /**
   * `CreateCampaignDto`: every decorated field present with its type and bounds.
   * The request reaches the controller exactly when this yields a value.
   */
  function CheckCreateCampaignDto(body: Body): (r: Option<CreateCampaignRequest>)
    ensures r.Some? <==>
              && IsStrOfLength(body, "title", 5, 200)
              && IsStrOfLength(body, "description", 50, 5000)
              && IsStrArray(body, "medicalDocuments")
              && IsStr(body, "goalAmount")
              && IsNum(body, "durationDays") && 1.0 <= body["durationDays"].n <= 365.0
              && IsStr(body, "creatorAddress")
    ensures r.Some? ==>
              && 5 <= |r.value.title| <= 200
              && 50 <= |r.value.description| <= 5000
              && 1.0 <= r.value.durationDays <= 365.0
              && r.value.title == body["title"].s
              && r.value.description == body["description"].s
              && |r.value.medicalDocuments| == |body["medicalDocuments"].items|
              && (forall i :: 0 <= i < |r.value.medicalDocuments| ==>
                    r.value.medicalDocuments[i] == body["medicalDocuments"].items[i].s)
              && r.value.goalAmount == body["goalAmount"].s
              && r.value.creatorAddress == body["creatorAddress"].s
  {
    if && IsStrOfLength(body, "title", 5, 200)
       && IsStrOfLength(body, "description", 50, 5000)
       && IsStrArray(body, "medicalDocuments")
       && IsStr(body, "goalAmount")
       && IsNum(body, "durationDays") && 1.0 <= body["durationDays"].n <= 365.0
       && IsStr(body, "creatorAddress")
    then
      Some(CreateCampaignRequest(
        body["title"].s, body["description"].s, Strings(body["medicalDocuments"].items),
        body["goalAmount"].s, body["durationDays"].n, body["creatorAddress"].s))
    else None
  }

  datatype PostUpdate = PostUpdate(campaignId: real, updateMessage: string, creatorAddress: string)

  /** `PostUpdateDto`: a numeric campaign id, a message of 10 to 1000 characters, a creator address. */
  function CheckPostUpdateDto(body: Body): (r: Option<PostUpdate>)
    ensures r.Some? <==>
              IsNum(body, "campaignId") && IsStrOfLength(body, "updateMessage", 10, 1000) && IsStr(body, "creatorAddress")
    ensures r.Some? ==> 10 <= |r.value.updateMessage| <= 1000 && r.value.updateMessage == body["updateMessage"].s
  {
    if IsNum(body, "campaignId") && IsStrOfLength(body, "updateMessage", 10, 1000) && IsStr(body, "creatorAddress")
    then Some(PostUpdate(body["campaignId"].n, body["updateMessage"].s, body["creatorAddress"].s))
    else None
  }

  /** Why `validateCampaignParams` refuses a request. */
  datatype ParamError = TitleRequired | DescriptionTooShort | InvalidGoal | InvalidDuration

  datatype ParamVerdict = Accepted | Rejected(reason: ParamError)

  const MinDescriptionLength := 50
  const MinDurationDays := 1.0
  const MaxDurationDays := 365.0

  /** The `HttpException` each refusal throws. */
  function ParamFailure(e: ParamError): Failure {
    match e
    case TitleRequired => Http(400, "Campaign title is required")
    case DescriptionTooShort => Http(400, "Campaign description must be at least 50 characters")
    case InvalidGoal => Http(400, "Invalid goal amount")
    case InvalidDuration => Http(400, "Campaign duration must be between 1 and 365 days")
  }

  /** The checks the title, description and goal must pass. */
  predicate TitleOk(title: string) { !AllWhitespace(title) }
  predicate DescriptionOk(description: string) { |Trim(description)| >= MinDescriptionLength }
  predicate GoalOk(goal: Option<real>) { goal.Some? && goal.value > 0.0 }
  predicate DurationOk(days: real) { MinDurationDays <= days <= MaxDurationDays }

  /**
   * `validateCampaignParams(title, description, goalAmount, durationDays)`;
   * `goal` is what `parseFloat(goalAmount)` gave (`None` for `NaN`).
   * The checks run title, description, goal, duration: the first one that fails
   * names the refusal, and a request is accepted only when all four pass.
   */
  function ValidateCampaignParams(title: string, description: string, goal: Option<real>, durationDays: real)
    : (r: ParamVerdict)
    ensures r == Rejected(TitleRequired) <==> !TitleOk(title)
    ensures r == Rejected(DescriptionTooShort) <==> TitleOk(title) && !DescriptionOk(description)
    ensures r == Rejected(InvalidGoal) <==> TitleOk(title) && DescriptionOk(description) && !GoalOk(goal)
    ensures r == Rejected(InvalidDuration) <==>
              TitleOk(title) && DescriptionOk(description) && GoalOk(goal) && !DurationOk(durationDays)
    ensures r == Accepted <==>
              TitleOk(title) && DescriptionOk(description) && GoalOk(goal) && DurationOk(durationDays)
  {
    TrimEmptyIffAllWhitespace(title);
    if |title| == 0 || |Trim(title)| == 0 then Rejected(TitleRequired)
    else if |description| == 0 || |Trim(description)| < 50 then Rejected(DescriptionTooShort)
    else if goal.None? || goal.value <= 0.0 then Rejected(InvalidGoal)
    else if durationDays < 1.0 || durationDays > 365.0 then Rejected(InvalidDuration)
    else Accepted
  }

  /**
   * The DTO and the service agree on the duration bounds, so a request that
   * passed the DTO is never refused for its duration.
   */
  lemma DtoSubsumesDurationCheck(body: Body, goal: Option<real>)
    requires CheckCreateCampaignDto(body).Some?
    ensures var req := CheckCreateCampaignDto(body).value;
            ValidateCampaignParams(req.title, req.description, goal, req.durationDays)
              != Rejected(InvalidDuration)
  {
  }

  /**
   * The DTO counts raw characters while the service counts trimmed ones:
   * a title of five spaces passes the DTO and is still refused as missing.
   */
  lemma DtoDoesNotSubsumeTrimmedChecks()
    ensures var body := map[
              "title" := JStr("     "),
              "description" := JStr(seq(50, _ => 'x')),
              "medicalDocuments" := JArr([]),
              "goalAmount" := JStr("1"),
              "durationDays" := JNum(30.0),
              "creatorAddress" := JStr("0xabc")];
            && CheckCreateCampaignDto(body).Some?
            && ValidateCampaignParams("     ", seq(50, _ => 'x'), Some(1.0), 30.0) == Rejected(TitleRequired)
  {
    var body := map[
      "title" := JStr("     "),
      "description" := JStr(seq(50, _ => 'x')),
      "medicalDocuments" := JArr([]),
      "goalAmount" := JStr("1"),
      "durationDays" := JNum(30.0),
      "creatorAddress" := JStr("0xabc")];
    assert IsStrOfLength(body, "title", 5, 200);
    assert AllWhitespace("     ");
  }
}
