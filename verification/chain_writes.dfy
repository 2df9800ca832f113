/**
 * The write side of the registry service: `createCampaign`, which recovers
 * the new campaign's id from the transaction receipt, and `verifyCampaign`.
 * The signed transaction itself is outside the model: each write is given as
 * the receipt it settled with, or as the exception it raised.
 */
module ChainWrites {
  import opened Wrappers
  import opened Records
  import opened Hex

  /** The arguments `createCampaign` is called with on the ledger contract. */
  datatype CreateArgs = CreateArgs(
    title: string,
    description: string,
    medicalDocumentHash: string,
    goalAmount: string,
    durationDays: real)

  /** `{ success, campaignId?, txId? }`. */
  datatype CreateOutcome = CreateOutcome(success: bool, campaignId: CampaignIdValue, txId: Option<string>)

  predicate CarriesId(e: Event) {
    |e.topics| >= 2
  }

  /** `events.find(e => e.topics && e.topics.length >= 2)`, as an index. */
  function FirstCampaignEvent(events: seq<Event>): (r: Option<nat>)
    ensures r.Some? ==> r.value < |events| && CarriesId(events[r.value])
    ensures r.Some? ==> forall j :: 0 <= j < r.value ==> !CarriesId(events[j])
    ensures r.None? ==> forall j :: 0 <= j < |events| ==> !CarriesId(events[j])
  {
    if |events| == 0 then None
    else if CarriesId(events[0]) then Some(0)
    else match FirstCampaignEvent(events[1..])
      case None => None
      case Some(k) => Some(k + 1)
  }

  /** The first id-carrying event is the one with no id-carrying event before it. */
  lemma FirstCampaignEventAt(events: seq<Event>, j: nat)
    requires j < |events| && CarriesId(events[j])
    requires forall i :: 0 <= i < j ==> !CarriesId(events[i])
    ensures FirstCampaignEvent(events) == Some(j)
  {
    var r := FirstCampaignEvent(events);
    assert r.Some?;
    assert !(r.value < j);
    assert !(j < r.value);
  }

  /**
   * The campaign id of a receipt: `topics[1]` of the first event of the first
   * output that has at least two topics, read as base 16; absent when there is
   * no output, no event, or no such event.
   */
  function ExtractCampaignId(receipt: Receipt): (id: CampaignIdValue)
    ensures id.Some? <==>
              |receipt.outputs| > 0 && exists j :: 0 <= j < |receipt.outputs[0].events| && CarriesId(receipt.outputs[0].events[j])
    ensures id.Some? ==>
              exists j :: 0 <= j < |receipt.outputs[0].events|
                       && CarriesId(receipt.outputs[0].events[j])
                       && (forall i :: 0 <= i < j ==> !CarriesId(receipt.outputs[0].events[i]))
                       && id.value == ParseInt16(receipt.outputs[0].events[j].topics[1])
  {
    if |receipt.outputs| > 0 && |receipt.outputs[0].events| > 0 then
      var events := receipt.outputs[0].events;
      match FirstCampaignEvent(events)
      case None => None
      case Some(j) => Some(ParseInt16(events[j].topics[1]))
    else None
  }

  /** `(result.meta as any)?.txID || undefined`: an empty transaction id is dropped. */
  function TxIdOf(receipt: Receipt): (id: Option<string>)
    ensures id.Some? <==> IsTruthyString(receipt.metaTxId)
    ensures id.Some? ==> receipt.metaTxId == id
  {
    if IsTruthyString(receipt.metaTxId) then receipt.metaTxId else None
  }

  const CreateFailed := Http(500, "Failed to create campaign on blockchain")

  /**
   * `createCampaign(...)` given how its transaction went: an exception is
   * rethrown as a 500, a reverted receipt is `{ success: false }`, and any
   * other receipt is a success carrying the recovered id.
   */
  function CreateCampaign(tx: Attempt<Receipt>): (r: Result<CreateOutcome>)
    ensures tx.Threw? <==> r == Err(CreateFailed)
    ensures tx.Done? && tx.value.reverted ==> r == Ok(CreateOutcome(false, None, None))
    ensures r.Ok? && r.value.success <==> tx.Done? && !tx.value.reverted
    ensures r.Ok? && r.value.success ==> r.value.campaignId == ExtractCampaignId(tx.value)
    ensures r.Ok? && r.value.success ==> r.value.txId == TxIdOf(tx.value)
  {
    match tx
    case Threw => Err(CreateFailed)
    case Done(receipt) =>
      if receipt.reverted then Ok(CreateOutcome(false, None, None))
      else Ok(CreateOutcome(true, ExtractCampaignId(receipt), TxIdOf(receipt)))
  }

  /**
   * When the first id-carrying event is the one the contract emitted for the new
   * campaign, whose second topic is the campaign id as a 32-byte word, the id the
   * service reports is that campaign id.
   */
  lemma CreatedIdRecovered(receipt: Receipt, skipped: seq<Event>, rest: seq<Event>, signature: string, n: nat)
    requires !receipt.reverted
    requires |receipt.outputs| > 0
    requires receipt.outputs[0].events == skipped + [Event([signature, Topic(n)])] + rest
    requires forall i :: 0 <= i < |skipped| ==> !CarriesId(skipped[i])
    requires n < Pow16(64)
    ensures CreateCampaign(Done(receipt)) == Ok(CreateOutcome(true, Some(Int(n)), TxIdOf(receipt)))
  {
    var events := receipt.outputs[0].events;
    assert FirstCampaignEvent(events) == Some(|skipped|) by {
      assert events[|skipped|] == Event([signature, Topic(n)]);
      assert forall i :: 0 <= i < |skipped| ==> events[i] == skipped[i];
      FirstCampaignEventAt(events, |skipped|);
    }
    assert ExtractCampaignId(receipt) == Some(ParseInt16(Topic(n))) by {
      assert events[|skipped|].topics[1] == Topic(n);
    }
    TopicRoundTrip(n);
  }

  /** `verifyCampaign(id, verified)`: `true` exactly when the transaction settled without reverting. */
  function VerifyCampaign(tx: Attempt<Receipt>): (ok: bool)
    ensures ok <==> tx.Done? && !tx.value.reverted
  {
    match tx
    case Threw => false
    case Done(receipt) => !receipt.reverted
  }
}
