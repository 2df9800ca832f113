# VeCare decision logic in Dafny

VeCare is a medical crowdfunding application. A creator uploads medical
documents. An AI vision model checks the first document. The evidence bundle
is pinned to IPFS, and the campaign is registered on a VeChain contract. Donors
browse campaigns, donate, and the creator withdraws.

This project models the pure decisions inside that glue:

- the request checks on `POST /campaigns`: the DTO bounds and `validateCampaignParams`;
- the creation workflow: the order of its external calls, the 0.6 ledger-verify
  gate and the 0.8 reported flag;
- the registry reads: pagination, the active-and-verified listing, and every
  failure collapsing to a default;
- how the campaign id is recovered from a transaction receipt (`parseInt(topic, 16)`);
- the read handlers' id and parameter checks, and the IPFS helper's defaults;
- the frontend rules: withdrawal eligibility, time-left buckets, progress,
  "my campaigns" filtering and its URL sync, trust tiers, the donation guard
  and receipt reading, the sidebar, file upload, and the two-step
  Verify & Create status machine.

External effects become parameters:

- the AI model, the IPFS pin and the ledger are oracles (functions) or given outcomes;
- the clock (`now`) is a parameter;
- `parseFloat`, `Number.prototype.toString` and the base64-image check are
  uninterpreted functions.

Every external call of the creation workflow is recorded in order in the run
it returns, so ordering and "no later step" properties become statements about
a sequence.

Modules:

| file | module | what it holds |
|---|---|---|
| wrappers.dfy | `Wrappers` | `Option`, `Result`, `Attempt`, `ReadOutcome`, `IntParse` (a `parseInt` result or `NaN`), JavaScript truthiness |
| records.dfy | `Records` | `Campaign`, `CreatorProfile`, `VerificationResult`, `CreateCampaignRequest`, receipts |
| seqs.dfy | `Seqs` | order-preserving filter, id ranges |
| text.dfy | `Text` | ECMAScript `trim`, ASCII `toLowerCase`, `substring` prefix |
| hex.dfy | `Hex` | `parseInt(_, 16)`, and the 32-byte topic encoding with its round trip |
| numbers.dfy | `Numbers` | small arithmetic lemmas (monotone products, floor division) |
| validation.dfy | `Validation` | `CreateCampaignDto`, `PostUpdateDto`, `validateCampaignParams` |
| registry.dfy | `Registry` | the service's read side |
| medical_verification.dfy | `MedicalVerification` | `verifyMedicalDocuments`, `quickValidate` |
| chain_writes.dfy | `ChainWrites` | the service's `createCampaign` and `verifyCampaign` |
| controller.dfy | `CampaignController` | the HTTP handlers and the creation workflow |
| countdown.dfy | `Countdown` | the time-left bucketing shared by two pages |
| campaign_browser.dfy | `CampaignBrowser` | the browser page |
| campaign_details.dfy | `CampaignDetails` | the details page |
| creator_dashboard.dfy | `CreatorDashboard` | the dashboard page |
| create_campaign.dfy | `CreateCampaignPage` | file upload and Verify & Create |

## Model

| member | source | states |
|---|---|---|
| Validation.CheckCreateCampaignDto | apps/backend/src/dtos/campaign.dto.ts:3-28 | A body passes exactly when the title is a string of 5..200 characters, the description a string of 50..5000, the documents an array of strings, the goal and creator strings, and the duration a number in [1, 365]. The request built from it carries those fields unchanged. |
| Validation.CheckPostUpdateDto | apps/backend/src/dtos/campaign.dto.ts:43-54 | A body passes exactly when it has a numeric campaign id, a message of 10..1000 characters and a creator string. |
| Validation.ValidateCampaignParams | apps/backend/src/services/vecare-contracts.service.ts:242-259 | Each refusal holds iff its check fails and every earlier one passed, in the order title (empty after trim), description (trimmed length below 50), goal (NaN or ≤ 0), duration (outside [1, 365]). Acceptance holds iff all four pass. |
| Validation.DtoSubsumesDurationCheck | apps/backend/src/dtos/campaign.dto.ts:21-24 | A body that passed the DTO is never refused by the service for its duration: both use the bounds [1, 365]. |
| Validation.DtoDoesNotSubsumeTrimmedChecks | apps/backend/src/services/vecare-contracts.service.ts:243-245 | A title of five spaces passes the DTO's length bound but is refused as missing, because the service trims. |
| Text.TrimIsMaximalSlice | apps/backend/src/services/vecare-contracts.service.ts:243-248 | `trim` returns a contiguous slice of its input. The slice starts and ends with non-whitespace, and everything cut off is whitespace. |
| Text.TrimEmptyIffAllWhitespace | apps/backend/src/services/vecare-contracts.service.ts:243 | The trimmed title is empty iff every character is whitespace. |
| Text.EqualsIgnoreCaseIsPointwise | apps/frontend/src/components/CampaignBrowser.tsx:120 | Two strings compare equal after lower-casing iff they have equal length and agree character by character after lower-casing. |
| Registry.GetCampaign | apps/backend/src/services/vecare-contracts.service.ts:102-131 | The campaign comes back iff the read returned a row. An empty result and a read that threw both give null. |
| Registry.PresentMembership | apps/backend/src/services/vecare-contracts.service.ts:144-149 | A campaign is in the listing of an id range iff one of those ids resolves to it. |
| Registry.GetAllCampaigns | apps/backend/src/services/vecare-contracts.service.ts:136-156 | The ids read are `startId, startId+1, …` up to `min(startId+limit-1, counter)` and never beyond the counter. The result is the non-null campaigns in id order, and its length is at most `limit`. A failed counter read reads nothing and returns []. |
| Registry.GetActiveVerifiedCampaigns | apps/backend/src/services/vecare-contracts.service.ts:161-171 | The result is the live campaigns (active, verified, deadline after `now`) among ids 1..min(100, counter), in id order. A campaign is listed iff it is live and stored at such an id. |
| Registry.GetCreatorProfile | apps/backend/src/services/vecare-contracts.service.ts:176-198 | A profile comes back iff the read returned a row, and it is that row. An empty result and a read that threw both give null. |
| Registry.GetDonation | apps/backend/src/services/vecare-contracts.service.ts:203-211 | The amount read, or "0" on any failure. |
| Registry.IsGoalReached | apps/backend/src/services/vecare-contracts.service.ts:216-224 | True iff the read returned `true`; an empty result and a failure are both false. |
| Registry.GetCampaignUpdateCount | apps/backend/src/services/vecare-contracts.service.ts:229-237 | A failed read gives 0, an empty result gives NaN, and a row gives its value. |
| MedicalVerification.AllImages | apps/backend/src/services/medical-verification.service.ts:27-31 | True iff every image passes the format check, not only the first. |
| MedicalVerification.ShapeCheck | apps/backend/src/services/medical-verification.service.ts:94-98 | A parsed answer is accepted iff `isVerified` is a boolean and `confidenceScore` a number. The result copies every field. |
| MedicalVerification.VerifyMedicalDocuments | apps/backend/src/services/medical-verification.service.ts:21-103 | No documents gives 400 and a bad image gives 400, both before any AI call. The AI is asked iff there is at least one document and all pass, and only `images[0]` is sent. The result is Ok iff the shape check passes; every other AI-phase failure is 500 "Error during medical document verification". There is no fallback verdict. |
| MedicalVerification.OnlyFirstImageAnalysed | apps/backend/src/services/medical-verification.service.ts:83-88 | Appending further valid documents never changes the outcome; only the AI's answer on the first document matters. |
| MedicalVerification.QuickValidate | apps/backend/src/services/medical-verification.service.ts:108-115 | Valid iff the image passes the format check, which is also iff the full check would send it. The message is fixed per branch. |
| Hex.ParseInt16 | apps/backend/src/services/vecare-contracts.service.ts:65 | `parseInt(_, 16)` reads a string made only of hex digits as the number it denotes. A negative result needs a leading `-` after whitespace. The `0x` prefix and the stop at the first non-digit are stated by `ParsePrefixed` and `DigitPrefix`. |
| Hex.DigitPrefix | apps/backend/src/services/vecare-contracts.service.ts:65 | `parseInt` reads the longest prefix of hex digits and stops at the first non-digit. |
| Hex.EncodeValue | apps/backend/src/services/vecare-contracts.service.ts:65 | The fixed-width hex encoding of `n` denotes `n` when `n` fits in the width. |
| Hex.ParsePrefixed | apps/backend/src/services/vecare-contracts.service.ts:65 | `parseInt("0x" + e, 16)` is the value of the whole digit string `e`. |
| Hex.TopicRoundTrip | apps/backend/src/services/vecare-contracts.service.ts:60-65 | Parsing a 32-byte topic with `parseInt(_, 16)` gives back the number encoded, as an exact integer. |
| ChainWrites.FirstCampaignEvent | apps/backend/src/services/vecare-contracts.service.ts:60 | The index found is the first event with at least two topics; none is found iff no event has two. |
| ChainWrites.FirstCampaignEventAt | apps/backend/src/services/vecare-contracts.service.ts:60 | An id-carrying event with none before it is the one `find` returns. |
| ChainWrites.ExtractCampaignId | apps/backend/src/services/vecare-contracts.service.ts:56-68 | An id is present iff the first output has an event with at least two topics. The id is then `parseInt(topics[1], 16)` of the first such event. |
| ChainWrites.CreateCampaign | apps/backend/src/services/vecare-contracts.service.ts:36-83 | An exception is a 500 "Failed to create campaign on blockchain". A reverted receipt is `{success: false}` with no id. Success holds iff the receipt did not revert. It then carries the extracted id and the receipt's transaction id, dropped when empty. |
| ChainWrites.TxIdOf | apps/backend/src/services/vecare-contracts.service.ts:70 | The transaction id is reported iff the receipt's is non-empty, and it is then that id. |
| ChainWrites.CreatedIdRecovered | apps/backend/src/services/vecare-contracts.service.ts:56-70 | When the first id-carrying event is the contract's creation event for campaign `n`, the service reports success with id `n`. |
| ChainWrites.VerifyCampaign | apps/backend/src/services/vecare-contracts.service.ts:88-97 | True iff the transaction settled without reverting; an exception is false. |
| CampaignController.Stage | apps/backend/src/controllers/campaign.controller.ts:29-76 | Each kind of external call has its own fixed place in the workflow: AI, pin, ledger create, ledger verify. |
| CampaignController.PinName | apps/backend/src/controllers/campaign.controller.ts:43 | The pin name is "vecare-campaign-" followed by a prefix of the title of length min(30, title length). |
| CampaignController.AfterCreation | apps/backend/src/controllers/campaign.controller.ts:62-95 | The response is Ok iff creation reported success. The verify call is made iff creation succeeded and the gate holds, and it is made with the recovered id. The payload is the id, the 0.8 flag and the verdict details, and the transaction id is the one creation reported. |
| CampaignController.AfterPin | apps/backend/src/controllers/campaign.controller.ts:54-60 | The ledger creation is made next, with the request's fields and the pinned content id as the document hash. |
| CampaignController.AfterVerdict | apps/backend/src/controllers/campaign.controller.ts:34-51 | The pin comes next, carrying all the documents, the verdict, the name and the tags. A pin that throws ends the run with nothing further called. |
| CampaignController.AfterValidation | apps/backend/src/controllers/campaign.controller.ts:29-31 | The AI is asked about the first document iff the documents pass the local checks. A failed check ends the run with its error and no further call. |
| CampaignController.CreateCampaign | apps/backend/src/controllers/campaign.controller.ts:16-99 | The calls of every run follow the workflow order, each at most once. A successful run made at least the AI, pin and create calls. |
| CampaignController.ValidationFailsFirst | apps/backend/src/controllers/campaign.controller.ts:21-26 | A request the service validation refuses makes no external call and fails with that check's 400. |
| CampaignController.LaterStepsNeedEarlierSuccess | apps/backend/src/controllers/campaign.controller.ts:21-60 | The AI is asked only after validation passed, and pinning only happens after the verdict passed its shape check. The pinned bundle holds that verdict and all documents, and the ledger record cites exactly the content id the pin returned. |
| CampaignController.FailedCreationStops | apps/backend/src/controllers/campaign.controller.ts:62-64 | A ledger creation that reverts or throws fails the request with 500, and no verify call is made. |
| CampaignController.ReachedCreation | apps/backend/src/controllers/campaign.controller.ts:29-60 | A run that reached the ledger creation had an accepted verdict and a successful pin. Its later calls and its outcome are those of the last stage. |
| CampaignController.AutoVerifyGate | apps/backend/src/controllers/campaign.controller.ts:68-77 | The ledger verify call happens iff creation succeeded, the verdict is verified, confidence ≥ 0.6 and the id is truthy. It uses the recovered, non-zero id. |
| CampaignController.ReportedFlag | apps/backend/src/controllers/campaign.controller.ts:79-89 | The response's `isVerified` is the verdict's `isVerified && confidenceScore >= 0.8`, whatever happened to the verify call. |
| CampaignController.DualThreshold | apps/backend/src/controllers/campaign.controller.ts:68-81 | At confidence 0.65 the campaign is verified on the ledger yet reported as not verified. |
| CampaignController.GetCampaignHandler | apps/backend/src/controllers/campaign.controller.ts:104-125 | A NaN id gives 400. A null campaign gives 404. Otherwise the campaign stored at that id. |
| CampaignController.Pagination | apps/backend/src/controllers/campaign.controller.ts:130-134 | `page` falls back to 1 and `limit` to 20 when the parse is NaN or 0. `startId = (page-1)*limit + 1`, which is ≥ 1 for positive page and limit. |
| CampaignController.PagesTile | apps/backend/src/controllers/campaign.controller.ts:134 | With a positive limit, consecutive pages are adjacent, and each id ≥ 1 lies in the window of exactly one page ≥ 1. |
| CampaignController.ListCampaigns | apps/backend/src/controllers/campaign.controller.ts:130-150 | The listing reads exactly the page's window, `startId` to `min(startId+limit-1, counter)`, and returns every campaign stored there, in id order. It holds at most `limit` campaigns and reports page, limit and count. A failed counter read reads nothing and lists nothing. |
| CampaignController.CreatorProfileHandler | apps/backend/src/controllers/campaign.controller.ts:172-193 | An empty address gives 400. The profile is returned iff it exists; otherwise 404. |
| CampaignController.DonationHandler | apps/backend/src/controllers/campaign.controller.ts:198-220 | A NaN id or an empty donor gives 400. Otherwise the id and donor are echoed with the amount, which is "0" when the read failed. |
| CampaignController.GoalReachedHandler | apps/backend/src/controllers/campaign.controller.ts:225-245 | A NaN id gives 400. Otherwise the id is echoed with `goalReached`, which is true iff the ledger said true. |
| CampaignController.UpdatesHandler | apps/backend/src/controllers/campaign.controller.ts:250-270 | A NaN id gives 400. Otherwise the id is echoed with the count: the stored count, 0 when the read threw, NaN when it came back empty. |
| CampaignController.IdChecksAgree | apps/backend/src/controllers/campaign.controller.ts:106-108 | The id-based read handlers refuse exactly the same ids (the unparsable ones) with the same 400. The manual verify refuses those and, in addition, exactly the non-positive ids. |
| CampaignController.FoundIsListed | apps/backend/src/controllers/campaign.controller.ts:104-150 | A campaign the single read returns is in the listing of every page whose window covers its id. `ListCampaigns` returns exactly that window's stored campaigns. |
| CampaignController.VerifyDocumentsHandler | apps/backend/src/controllers/campaign.controller.ts:277-294 | A missing or empty list gives 400 before the service runs; otherwise the service's outcome. |
| CampaignController.VerifyOnChainHandler | apps/backend/src/controllers/campaign.controller.ts:345-371 | A NaN or non-positive id gives 400. Ok iff the verify transaction did not revert; otherwise 500. No route in apps/backend/src/routes/campaign.route.ts registers this handler. |
| CampaignController.UploadMetadata | apps/backend/src/controllers/campaign.controller.ts:316-325 | The defaults are name "untitled", creator "unknown", verified "false" and confidence "0". Otherwise the name is the prefixed 30-character title, `verified` is "true" iff the body's `isVerified` is true, and the confidence tag is the score's string form ("0" if that is empty). |
| CampaignController.UploadMatchesCreation | apps/backend/src/controllers/campaign.controller.ts:43-49 | Given the request's title, creator and verdict, the helper builds the creation workflow's pin metadata iff the creator is non-empty. An empty creator becomes "unknown" in the helper only. |
| CampaignController.UploadHandler | apps/backend/src/controllers/campaign.controller.ts:301-338 | A missing documents array gives 400. Otherwise one pin, with a falsy timestamp replaced by `now`, and its content id is returned. |
| Countdown.Bucket | apps/frontend/src/components/CampaignDetails.tsx:197-206 | Days iff at least 86400 seconds are left, with the floor of the day count. Hours iff 3600..86399 are left, with the floor of the hour count. Ending soon otherwise, including past deadlines. |
| Countdown.CountdownNeverRises | apps/frontend/src/components/CampaignBrowser.tsx:95-103 | A later `now` never promises more time left. |
| Countdown.DecimalRoundTrip | apps/frontend/src/components/CampaignBrowser.tsx:98 | The count interpolated into the label reads back as the count. |
| Countdown.Label | apps/frontend/src/components/CampaignBrowser.tsx:95-103 | A day bucket reads "N days <suffix>" and an hour bucket "N hours <suffix>", with N in decimal. Otherwise the label is "Ending soon", the only label not starting with a digit. |
| Countdown.LabelDeterminesBucket | apps/frontend/src/components/CampaignBrowser.tsx:95-103 | For a fixed suffix, two buckets with the same label are the same bucket, count included: the label loses nothing. |
| CampaignBrowser.Delete | apps/frontend/src/components/CampaignBrowser.tsx:51 | `params.delete` removes every pair with that name and keeps all other pairs, in order. |
| CampaignBrowser.Get | apps/frontend/src/components/CampaignBrowser.tsx:43 | `params.get` gives the value of the first pair with that name, or none iff there is no such pair. |
| CampaignBrowser.GetAfterSet | apps/frontend/src/components/CampaignBrowser.tsx:50 | After `params.set(k, v)`, `params.get(k)` is `v`. |
| CampaignBrowser.SetKeepsOthers | apps/frontend/src/components/CampaignBrowser.tsx:50-51 | `set` leaves the pairs of every other name unchanged and in order. |
| CampaignBrowser.InitialFilter | apps/frontend/src/components/CampaignBrowser.tsx:41-44 | The page starts on "my" iff the query's `filter` is `my`. |
| CampaignBrowser.SyncUrl | apps/frontend/src/components/CampaignBrowser.tsx:48-54 | After the write-back, the query's `filter` reads `my` for the "my" listing and is absent otherwise. `UrlRoundTrip` adds that no other parameter changes. |
| CampaignBrowser.UrlRoundTrip | apps/frontend/src/components/CampaignBrowser.tsx:41-54 | Reloading from the query the page wrote restores the filter it wrote. No other parameter changes. |
| CampaignBrowser.FetchCampaigns | apps/frontend/src/components/CampaignBrowser.tsx:61-87 | "my" without a wallet asks nothing and shows []. "my" asks the default listing page; "all" asks the active-and-verified listing. Any exception or unsuccessful body shows []. |
| CampaignBrowser.DisplayList | apps/frontend/src/components/CampaignBrowser.tsx:118-121 | Under "my" with a wallet, a campaign is shown iff it was fetched and its creator equals the account ignoring case. Otherwise the list is shown unchanged. |
| CampaignBrowser.DisplayListStable | apps/frontend/src/components/CampaignBrowser.tsx:118-121 | The filter is idempotent and distributes over concatenation, so the fetched order is kept. |
| CampaignBrowser.CalculateProgress | apps/frontend/src/components/CampaignBrowser.tsx:89-93 | The result is 0 when the goal is 0 or unparsable. Otherwise it is the raised amount (0 if unparsable) as a percentage of the goal. |
| CampaignBrowser.ProgressBounds | apps/frontend/src/components/CampaignBrowser.tsx:89-93 | With a positive goal, progress is within [0, 100] for raised within [0, goal], and reaches 100 iff the goal is met. |
| CampaignBrowser.FormatTimeLeft | apps/frontend/src/components/CampaignBrowser.tsx:95-103 | "Ending soon" iff less than an hour is left. From one to 24 hours it is "N hours left", with N the floor of the hour count. From a day on it is "N days left", with N the floor of the day count. |
| CampaignDetails.DetailsProgress | apps/frontend/src/components/CampaignDetails.tsx:190-195 | The details page has no zero guard: the result is finite iff both amounts parse and the goal is non-zero. It is 0 before the campaign loads. |
| CampaignDetails.ProgressAgreesWithCard | apps/frontend/src/components/CampaignDetails.tsx:190-195 | The details page and the card agree wherever both amounts parse and the goal is non-zero. At a zero goal the card shows 0 and the details page a non-finite number. |
| CampaignDetails.FormatTimeRemaining | apps/frontend/src/components/CampaignDetails.tsx:197-206 | Empty iff no campaign has loaded. "Ending soon" iff under an hour is left. "N hours remaining" from one to 24 hours, and "N days remaining" from a day on, with N the floor of the hour or day count. |
| CampaignDetails.CanWithdraw | apps/frontend/src/components/CampaignDetails.tsx:208-219 | True only for a loaded campaign whose creator matches the wallet ignoring case, not yet withdrawn, and not raising exactly 0. It also needs the deadline to have passed or the raised amount to reach the goal. |
| CampaignDetails.WithdrawalWindow | apps/frontend/src/components/CampaignDetails.tsx:214-218 | For the creator with a positive raised amount and nothing withdrawn, withdrawal is open iff the deadline has passed or the goal is met. |
| CampaignDetails.WithdrawalStaysOpen | apps/frontend/src/components/CampaignDetails.tsx:214-218 | Once open, withdrawal stays open as time passes. |
| CampaignDetails.WithdrawalNeedsFundsAndCreator | apps/frontend/src/components/CampaignDetails.tsx:208-212 | Nothing raised, a different wallet or funds already withdrawn keep withdrawal closed. |
| CampaignDetails.SidebarFor | apps/frontend/src/components/CampaignDetails.tsx:459-625 | Management iff the wallet is the creator ignoring case. Otherwise closed iff funds are withdrawn, else the donate form, whose button is enabled iff a wallet is connected. |
| CampaignDetails.WithdrawButtonExactlyWhenAllowed | apps/frontend/src/components/CampaignDetails.tsx:459-557 | The withdraw button appears iff `canWithdraw()` holds. |
| CampaignDetails.DonationGuard | apps/frontend/src/components/CampaignDetails.tsx:86-104 | No wallet is refused first; then an empty amount or one parsing to ≤ 0. Anything else proceeds. |
| CampaignDetails.UnparsableAmountPassesGuard | apps/frontend/src/components/CampaignDetails.tsx:95-104 | A non-numeric amount is not refused, because comparisons with NaN are false. |
| CampaignDetails.Settle | apps/frontend/src/components/CampaignDetails.tsx:106-187 | A failure to build the clause, then a missing connection, then a failed signing each give one failure toast with the error's message ("Please try again" for a non-`Error`). Once sent, "Transaction Sent!" comes first; a failed receipt read then gives a failure toast with that error's message. It is followed by success iff the receipt exists and did not revert, "in progress" iff there is no receipt yet, and "Transaction reverted" for a reverted one. |
| CampaignDetails.HandleDonate | apps/frontend/src/components/CampaignDetails.tsx:85-188 | A refused guard shows its warning ("Wallet not connected" or "Invalid amount") and sends nothing. Otherwise the toasts are the transaction's. The amount is cleared and the campaign reloaded iff the guard passed and the run settled as a success or in progress; a failure keeps the amount. |
| CampaignDetails.DonationReloadsExactlyWhenAccepted | apps/frontend/src/components/CampaignDetails.tsx:105-176 | A donation reloads iff the guard passed, the clause was built, a connection existed, and the receipt is missing or did not revert. |
| CampaignDetails.RevertedDonationKeepsAmount | apps/frontend/src/components/CampaignDetails.tsx:166-176 | A reverted donation keeps the amount and does not reload. |
| CampaignDetails.HandleWithdraw | apps/frontend/src/components/CampaignDetails.tsx:221-295 | Silent iff there is no wallet or no campaign. Otherwise the same transaction reading, reloading iff it settled as a success or in progress. |
| CampaignDetails.DonationAndWithdrawalSettleAlike | apps/frontend/src/components/CampaignDetails.tsx:105-295 | Once a donation passes its guard, a donation and a withdrawal with the same transaction outcome show the same toasts and reload alike. |
| CreatorDashboard.TierOf | apps/frontend/src/components/CreatorDashboard.tsx:65-77 | The tiers are [80, ∞), [60, 80), [40, 60) and below 40, and they are exhaustive and disjoint. |
| CreatorDashboard.TierMonotone | apps/frontend/src/components/CreatorDashboard.tsx:65-77 | A higher score never lands in a lower tier. |
| CreatorDashboard.TrustScoreColor | apps/frontend/src/components/CreatorDashboard.tsx:65-70 | The colour is the tier's: green, blue, orange, red. |
| CreatorDashboard.TrustScoreLabel | apps/frontend/src/components/CreatorDashboard.tsx:72-77 | The label is the tier's: Excellent, Good, Fair, Building. |
| CreatorDashboard.ColorAndLabelAgree | apps/frontend/src/components/CreatorDashboard.tsx:65-77 | Two scores share a colour iff they share a label. |
| CreatorDashboard.SuccessRate | apps/frontend/src/components/CreatorDashboard.tsx:245-251 | A rate exists iff there is at least one campaign, so there is no division by zero. Rate × total = successful × 100. |
| CreatorDashboard.SuccessRateBounds | apps/frontend/src/components/CreatorDashboard.tsx:245-251 | The rate lies in [0, 100] when the successful count is within the total, and it is 100 iff every campaign succeeded. |
| CreatorDashboard.AfterFetch | apps/frontend/src/components/CreatorDashboard.tsx:43-63 | Only a successful body replaces the profile; an exception or failure keeps it. |
| CreatorDashboard.ViewFor | apps/frontend/src/components/CreatorDashboard.tsx:79-117 | No wallet shows the connect prompt, then loading shows a spinner. No profile, or one that does not exist, shows the empty state. Otherwise the dashboard with the success rate. |
| CreateCampaignPage.PickPermutes | apps/frontend/src/components/CreateCampaign.tsx:54-61 | Taking the files in any completion order yields the same multiset of data URLs. |
| CreateCampaignPage.HandleFileUpload | apps/frontend/src/components/CreateCampaign.tsx:50-62 | Without files nothing changes. Otherwise the existing documents stay as a prefix and exactly one data URL per file is appended. |
| CreateCampaignPage.MarkError | apps/frontend/src/components/CreateCampaign.tsx:148 | Only the step equal to the compared step becomes an error; every other status is kept. |
| CreateCampaignPage.VerifyAndCreate | apps/frontend/src/components/CreateCampaign.tsx:65-154 | No wallet or no documents return before any request with the state unchanged. Otherwise the verify request is sent, and the create request follows iff verification succeeded with `isVerified`. Created iff that succeeded, with statuses [done, done] and navigation to the new id. An unsuccessful verify body or an unverified verdict ends with [error, pending] after one request; an unsuccessful create body ends with [done, error]. An exception marks the compared step in the statuses of the step it occurred in. `finally` always leaves processing off and no current step. |
| CreateCampaignPage.IdlePageHasNoStep | apps/frontend/src/components/CreateCampaign.tsx:150-153 | An idle page always has no step in progress, so the step a new click's `catch` captured at render is null. |
| CreateCampaignPage.StaleStepLeavesActive | apps/frontend/src/components/CreateCampaign.tsx:147-149 | As written, a verify request that throws leaves the first step shown as active after the flow ended, with no step marked failed. |
| CreateCampaignPage.NoStepLeftActive | apps/frontend/src/components/CreateCampaign.tsx:86-153 | When the catch reads the step in progress, no step is left active. The statuses are [done, done] iff the campaign was created, and otherwise the last step attempted is the failed one. |

## Left out

- The Pinata, OpenAI and VeChain SDK calls, and how a transaction is signed and sent: each is a parameter (an oracle or a given outcome).
- `isBase64Image` is an uninterpreted predicate, because its source is not part of this model.
- `parseFloat`, `Number.prototype.toString` and `Date.now()` are parameters. NaN is `None`, and finite reals stand for JavaScript doubles, so rounding and precision above 2^53 are not modelled.
- `parseInt` on decimal query parameters is taken as its result (`IntParse`). Only the base-16 `parseInt` of a receipt topic is written out.
- Hex.ParseInt16: gives the exact integer a digit string denotes. JavaScript's `parseInt` returns a double, so above 2^53 its result is rounded to the nearest double; campaign ids are counters far below that, and the rounding is not modelled.
- Hex.TopicRoundTrip: recovers n exactly for every n below 16^64; with JavaScript doubles that holds only up to 2^53 (see Hex.ParseInt16).
- ChainWrites.CreatedIdRecovered: the reported id equals the emitted id exactly; with JavaScript doubles that holds only for ids up to 2^53 (see Hex.ParseInt16).
- `toLowerCase` maps ASCII letters only, and `substring` and lengths count characters rather than UTF-16 code units.
- Wei conversion (`parseUnits`/`formatUnits`), the 2.5% fee display and `toFixed` rendering are left out; amounts are the strings or reals after conversion.
- CreatorDashboard.SuccessRate: the exact rate is modelled, not its `toFixed(0)` rounding.
- React state, hooks, toasts' styling, loading spinners and async interleaving are reduced to the decision each handler makes. A page's fetch is modelled as its reply.
- `handleFileUpload`: a `FileReader` that never finishes or fails is not modelled. The order in which readers finish is a permutation parameter.
- The navigation `setTimeout` after a created campaign is reduced to the id navigated to.
- URL serialisation of the query string is not modelled; the query is a list of name/value pairs.
- The ledger's answer to the automatic verify call is left out, because it is only logged and never reaches the response (CampaignController.ReportedFlag).
- CampaignBrowser.FetchCampaigns: the "my" filter only sees the first page (20 campaigns) of the whole listing, as the source asks for no more.
- Routing, config loading, the logger, module aliases, the deploy script, unpin and fetch-from-IPFS helpers, and the DTOs no route uses (`VerifyCampaignDto`, `GetCampaignDto`) are left out.
- Error logging in every `catch` block is dropped; only the value each handler returns is modelled.
- MedicalVerification.ShapeCheck: the parsed answer's `documentType`, `findings`, `reasoning` and `redFlags` are taken as present and well-typed. The source checks only `isVerified` and `confidenceScore` and passes the rest through unchecked.
- CampaignController.UploadMetadata: the helper's body fields are typed (a string title, a string creator, a verdict object). A non-string `campaignTitle` makes `substring` throw in the source, and that path is not modelled.
- CampaignController.VerifyOnChainHandler models a handler that no route registers. It is kept because the controller defines it.
- CampaignDetails.HandleDonate: the handler is reached only from the donate form, which is shown only with a loaded campaign. The `campaign!` dereference on a missing campaign is not modelled.
- Toast titles, durations and styling are not modelled beyond the guard warnings' titles and the failure descriptions.
- There is no safe-default verdict when the AI phase fails. The source turns every such failure into a 500, and the model does the same.

## Findings

| source | as written | input that shows it | evidently intended | confidence | as-written member | corrected member |
|---|---|---|---|---|---|---|
| apps/frontend/src/components/CreateCampaign.tsx:148 | The `catch` compares each index with `currentStep` captured when the button rendered. That value is always `null`, so no step is marked as an error. | A wallet and one document, with the verify request throwing (network error). The statuses end as [active, pending] after processing has stopped. | Mark the step in progress (0 or 1) as an error, leaving no step active. | not executed | CreateCampaignPage.StaleStepLeavesActive | CreateCampaignPage.NoStepLeftActive |
