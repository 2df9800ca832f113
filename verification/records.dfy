/**
 * The record shapes the backend and the frontend exchange
 * (`apps/backend/src/interfaces/campaign.interface.ts` and the service's own copies).
 */
module Records {
  import opened Wrappers

  /**
   * A campaign as the backend returns it. Amounts are the decimal strings the
   * registry's fixed-point values are formatted to; timestamps are in seconds.
   */
  datatype Campaign = Campaign(
    id: int,
    creator: string,
    title: string,
    description: string,
    medicalDocumentHash: string,
    goalAmount: string,
    raisedAmount: string,
    deadline: int,
    isActive: bool,
    isVerified: bool,
    fundsWithdrawn: bool,
    createdAt: int,
    donorCount: int)

  datatype CreatorProfile = CreatorProfile(
    totalCampaigns: int,
    successfulCampaigns: int,
    totalRaised: string,
    trustScore: int,
    lastUpdateTimestamp: int,
    profileExists: bool)

  /** The verdict of the AI document check (`MedicalVerificationResult`). */
  datatype VerificationResult = VerificationResult(
    isVerified: bool,
    confidenceScore: real,
    documentType: string,
    findings: seq<string>,
    reasoning: string,
    redFlags: seq<string>)

  /** The body of `POST /campaigns` once it has passed the DTO check. */
  datatype CreateCampaignRequest = CreateCampaignRequest(
    title: string,
    description: string,
    medicalDocuments: seq<string>,
    goalAmount: string,
    durationDays: real,
    creatorAddress: string)

  datatype VerificationDetails = VerificationDetails(
    confidenceScore: real,
    documentType: string,
    findings: seq<string>,
    reasoning: string,
    redFlags: seq<string>)

  /**
   * A campaign id as the backend hands it on: absent (`undefined`),
   * or whatever `parseInt` made of an event topic.
   */
  type CampaignIdValue = Option<IntParse>

  /** `if (campaignId)`: defined, not `NaN`, and not zero. */
  predicate IsTruthyId(id: CampaignIdValue) {
    id.Some? && IsTruthyInt(id.value)
  }

  /** The `201` payload of campaign creation (`CampaignVerificationResult`). */
  datatype CampaignVerificationResult = CampaignVerificationResult(
    campaignId: CampaignIdValue,
    isVerified: bool,
    verificationDetails: VerificationDetails)

  /** One event of a transaction clause: its log topics. */
  datatype Event = Event(topics: seq<string>)

  /** One clause output of a transaction receipt: the events it emitted. */
  datatype Output = Output(events: seq<Event>)

  /** A settled transaction's receipt: reverted or not, its outputs, and the id in its metadata. */
  datatype Receipt = Receipt(reverted: bool, outputs: seq<Output>, metaTxId: Option<string>)
}
