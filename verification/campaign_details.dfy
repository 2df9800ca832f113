/**
 * The campaign details page: its progress figure and time-remaining label,
 * the withdrawal rule, the sidebar each visitor sees, and how the donation and
 * withdrawal handlers guard their input and read the transaction receipt.
 *
 * Signing and sending a transaction are outside the model: a handler is given
 * how that ended.
 */
module CampaignDetails {
  import opened Wrappers
  import opened Text
  import opened Records
  import opened Countdown
  import CampaignBrowser

  /** A JavaScript number that may not be finite (`NaN`, `Infinity`). */
  datatype JsNumber = Finite(v: real) | NonFinite

  /**
   * The page's `calculateProgress`: `(raised / goal) * 100` with no guard, so an
   * unparsable amount or a zero goal gives a non-finite number; `0` before the
   * campaign has loaded.
   */
  function DetailsProgress(campaign: Option<Campaign>, parseFloat: string -> Option<real>): (p: JsNumber)
    ensures campaign.None? ==> p == Finite(0.0)
    ensures campaign.Some? ==>
              (p.Finite? <==> parseFloat(campaign.value.raisedAmount).Some? && parseFloat(campaign.value.goalAmount).Some?
                              && parseFloat(campaign.value.goalAmount).value != 0.0)
    ensures campaign.Some? && p.Finite? ==>
              p.v * parseFloat(campaign.value.goalAmount).value == parseFloat(campaign.value.raisedAmount).value * 100.0
  {
    match campaign
    case None => Finite(0.0)
    case Some(c) =>
      var raised := parseFloat(c.raisedAmount);
      var goal := parseFloat(c.goalAmount);
      if raised.Some? && goal.Some? && goal.value != 0.0 then Finite(raised.value / goal.value * 100.0)
      else NonFinite
  }

  /**
   * Where both amounts parse and the goal is non-zero, the details page and the
   * browser card show the same progress; a zero goal is where they part.
   */
  lemma ProgressAgreesWithCard(c: Campaign, parseFloat: string -> Option<real>)
    ensures parseFloat(c.raisedAmount).Some? && parseFloat(c.goalAmount).Some? && parseFloat(c.goalAmount).value != 0.0 ==>
              DetailsProgress(Some(c), parseFloat)
                == Finite(CampaignBrowser.CalculateProgress(c.raisedAmount, c.goalAmount, parseFloat))
    ensures parseFloat(c.goalAmount) == Some(0.0) ==>
              DetailsProgress(Some(c), parseFloat) == NonFinite
              && CampaignBrowser.CalculateProgress(c.raisedAmount, c.goalAmount, parseFloat) == 0.0
  {
  }

  const RemainingSuffix := "remaining"

  /** The page's `formatTimeRemaining`: empty before the campaign has loaded. */
  function FormatTimeRemaining(campaign: Option<Campaign>, now: int): (shown: string)
    ensures campaign.None? <==> shown == ""
    ensures campaign.Some? ==> (shown == "Ending soon" <==> campaign.value.deadline - now < SecondsPerHour)
    ensures campaign.Some? && campaign.value.deadline - now >= SecondsPerDay ==>
              shown == Decimal((campaign.value.deadline - now) / SecondsPerDay) + " days " + RemainingSuffix
    ensures campaign.Some? && SecondsPerHour <= campaign.value.deadline - now < SecondsPerDay ==>
              shown == Decimal((campaign.value.deadline - now) / SecondsPerHour) + " hours " + RemainingSuffix
  {
    match campaign
    case None => ""
    case Some(c) => Label(Bucket(c.deadline, now), RemainingSuffix)
  }

  /** The connected wallet is the campaign's creator (`account && creator.toLowerCase() === account.toLowerCase()`). */
  predicate ViewerIsCreator(c: Campaign, account: Option<string>) {
    IsTruthyString(account) && CampaignBrowser.CreatedBy(c, account.value)
  }

  /** `canWithdraw()` at time `now` (seconds); every comparison with `NaN` is false. */
  function CanWithdraw(campaign: Option<Campaign>, account: Option<string>, now: int, parseFloat: string -> Option<real>)
    : (ok: bool)
    ensures ok ==> campaign.Some? && ViewerIsCreator(campaign.value, account) && !campaign.value.fundsWithdrawn
    ensures ok ==> parseFloat(campaign.value.raisedAmount) != Some(0.0)
    ensures ok ==> now >= campaign.value.deadline
                   || (parseFloat(campaign.value.raisedAmount).Some? && parseFloat(campaign.value.goalAmount).Some?
                       && parseFloat(campaign.value.raisedAmount).value >= parseFloat(campaign.value.goalAmount).value)
  {
    if campaign.None? || !IsTruthyString(account) then false
    else
      var c := campaign.value;
      if !EqualsIgnoreCase(c.creator, account.value) then false
      else if c.fundsWithdrawn then false
      else if parseFloat(c.raisedAmount) == Some(0.0) then false
      else
        var isExpired := now >= c.deadline;
        var raised, goal := parseFloat(c.raisedAmount), parseFloat(c.goalAmount);
        var isGoalReached := raised.Some? && goal.Some? && raised.value >= goal.value;
        isExpired || isGoalReached
  }

  /**
   * For the creator of a campaign not yet withdrawn with a positive raised
   * amount, withdrawal opens exactly at the deadline or when the goal is met.
   */
  lemma WithdrawalWindow(c: Campaign, account: Option<string>, now: int, parseFloat: string -> Option<real>)
    requires ViewerIsCreator(c, account) && !c.fundsWithdrawn
    requires parseFloat(c.raisedAmount).Some? && parseFloat(c.raisedAmount).value > 0.0
    requires parseFloat(c.goalAmount).Some?
    ensures CanWithdraw(Some(c), account, now, parseFloat) <==>
              now >= c.deadline || parseFloat(c.raisedAmount).value >= parseFloat(c.goalAmount).value
  {
  }

  /** Once withdrawal is open it stays open as time passes. */
  lemma WithdrawalStaysOpen(campaign: Option<Campaign>, account: Option<string>, now1: int, now2: int,
                            parseFloat: string -> Option<real>)
    requires now1 <= now2
    requires CanWithdraw(campaign, account, now1, parseFloat)
    ensures CanWithdraw(campaign, account, now2, parseFloat)
  {
  }

  /** Nothing raised, or the wrong wallet, keeps withdrawal closed even after the deadline. */
  lemma WithdrawalNeedsFundsAndCreator(c: Campaign, account: Option<string>, now: int, parseFloat: string -> Option<real>)
    requires parseFloat(c.raisedAmount) == Some(0.0) || !ViewerIsCreator(c, account) || c.fundsWithdrawn
    ensures !CanWithdraw(Some(c), account, now, parseFloat)
  {
  }

  datatype ManagementPanel = AlreadyWithdrawn | ReadyToWithdraw | NotYetAvailable(timeLeft: string)

  /** What the sidebar shows: management for the creator, a closed notice once funds are withdrawn, else the donation form. */
  datatype Sidebar = Management(panel: ManagementPanel) | Closed | DonateForm(buttonEnabled: bool)

  function SidebarFor(c: Campaign, account: Option<string>, now: int, parseFloat: string -> Option<real>): (s: Sidebar)
    ensures s.Management? <==> ViewerIsCreator(c, account)
    ensures s == Closed <==> !ViewerIsCreator(c, account) && c.fundsWithdrawn
    ensures s.DonateForm? ==> (s.buttonEnabled <==> IsTruthyString(account))
  {
    if ViewerIsCreator(c, account) then
      Management(
        if c.fundsWithdrawn then AlreadyWithdrawn
        else if CanWithdraw(Some(c), account, now, parseFloat) then ReadyToWithdraw
        else NotYetAvailable(FormatTimeRemaining(Some(c), now)))
    else if c.fundsWithdrawn then Closed
    else DonateForm(IsTruthyString(account))
  }

  /** The withdraw button is on the page exactly when `canWithdraw()` holds. */
  lemma WithdrawButtonExactlyWhenAllowed(c: Campaign, account: Option<string>, now: int, parseFloat: string -> Option<real>)
    ensures SidebarFor(c, account, now, parseFloat) == Management(ReadyToWithdraw) <==>
              CanWithdraw(Some(c), account, now, parseFloat)
  {
  }

  // ---------------------------------------------------------------------------
  // Donation and withdrawal

  datatype DonateGuard = NoWallet | InvalidAmount | Proceed

  /** The checks before a donation is sent: a wallet, then a non-empty amount that does not parse to `<= 0`. */
  function DonationGuard(account: Option<string>, amount: string, parseFloat: string -> Option<real>): (g: DonateGuard)
    ensures g == NoWallet <==> !IsTruthyString(account)
    ensures g == InvalidAmount <==>
              IsTruthyString(account) && (|amount| == 0 || (parseFloat(amount).Some? && parseFloat(amount).value <= 0.0))
    ensures g == Proceed ==> |amount| > 0 && (parseFloat(amount).None? || parseFloat(amount).value > 0.0)
  {
    if !IsTruthyString(account) then NoWallet
    else if |amount| == 0 || (parseFloat(amount).Some? && parseFloat(amount).value <= 0.0) then InvalidAmount
    else Proceed
  }

  /** An amount that does not parse as a number is not refused by the guard: `NaN <= 0` is false. */
  lemma UnparsableAmountPassesGuard(account: Option<string>, amount: string, parseFloat: string -> Option<real>)
    requires IsTruthyString(account) && |amount| > 0 && parseFloat(amount).None?
    ensures DonationGuard(account, amount, parseFloat) == Proceed
  {
  }

  datatype TxReceipt = TxReceipt(reverted: bool)

  /**
   * How building the transaction clause ended. The amount conversion and the
   * ABI encoding run before the wallet connection is looked at, and either may
   * throw (`Some(message)` for an `Error`, `None` for anything else).
   */
  datatype Built = Built | BuildFailed(message: Option<string>)

  /**
   * How signing and sending ended: an exception while signing, an exception
   * while fetching the receipt, or a receipt that may not be available yet.
   */
  datatype Sent = SendFailed(message: Option<string>) | ReceiptFailed(message: Option<string>) | SentTx(receipt: Option<TxReceipt>)

  /** A toast: a guard's warning, "Transaction Sent!" while waiting, or the verdict. */
  datatype Notice = Warning(title: string) | Submitted | Succeeded | InProgress | Failed(description: string)

  const WalletWarning := "Wallet not connected"
  const AmountWarning := "Invalid amount"
  const NotConnected := "Please connect your wallet"
  const Reverted := "Transaction reverted"

  /** What the `catch` block shows: an `Error`'s message, or "Please try again". */
  function ErrorText(message: Option<string>): string {
    if message.Some? then message.value else "Please try again"
  }

  function Last(toasts: seq<Notice>): Notice
    requires |toasts| > 0
  {
    toasts[|toasts| - 1]
  }

  /** The run ended well: a confirmed receipt, or one not yet available. */
  predicate SettledWell(toasts: seq<Notice>) {
    |toasts| > 0 && (Last(toasts) == Succeeded || Last(toasts) == InProgress)
  }

  /**
   * The toasts of the `try` block and its `catch`, in order. A clause that
   * fails to build, a missing wallet connection and a failed signing each end
   * with one failure toast; once sent, "Transaction Sent!" comes first and the
   * receipt decides the second: none yet is in progress, a reverted one fails
   * with "Transaction reverted", any other succeeds.
   */
  function Settle(built: Built, connected: bool, sent: Sent): (toasts: seq<Notice>)
    ensures 1 <= |toasts| <= 2
    ensures built.BuildFailed? ==> toasts == [Failed(ErrorText(built.message))]
    ensures built.Built? && !connected ==> toasts == [Failed(NotConnected)]
    ensures |toasts| == 2 <==> built.Built? && connected && !sent.SendFailed?
    ensures built.Built? && connected && sent.SendFailed? ==> toasts == [Failed(ErrorText(sent.message))]
    ensures built.Built? && connected && sent.ReceiptFailed? ==> toasts == [Submitted, Failed(ErrorText(sent.message))]
    ensures |toasts| == 2 ==> toasts[0] == Submitted
    ensures Last(toasts) == Succeeded <==> built.Built? && connected && sent == SentTx(Some(TxReceipt(false)))
    ensures Last(toasts) == InProgress <==> built.Built? && connected && sent == SentTx(None)
    ensures !SettledWell(toasts) ==> Last(toasts).Failed?
    ensures built.Built? && connected && sent == SentTx(Some(TxReceipt(true))) ==> toasts == [Submitted, Failed(Reverted)]
  {
    if built.BuildFailed? then [Failed(ErrorText(built.message))]
    else if !connected then [Failed(NotConnected)]
    else match sent
      case SendFailed(m) => [Failed(ErrorText(m))]
      case ReceiptFailed(m) => [Submitted, Failed(ErrorText(m))]
      case SentTx(None) => [Submitted, InProgress]
      case SentTx(Some(r)) => [Submitted, if r.reverted then Failed(Reverted) else Succeeded]
  }

  /** The handler's effects: the guard's verdict, its toasts, the amount field after it, and whether the campaign is reloaded. */
  datatype DonationRun = DonationRun(guard: DonateGuard, toasts: seq<Notice>, amountAfter: string, refetched: bool)

  /**
   * `handleDonate`: a refused guard shows its warning and sends nothing.
   * Otherwise the clause is built, the connection checked and the transaction
   * sent; a success or a pending receipt clears the amount and reloads the
   * campaign, and a failure keeps the amount for another try.
   */
  function HandleDonate(account: Option<string>, amount: string, parseFloat: string -> Option<real>,
                        built: Built, connected: bool, sent: Sent): (r: DonationRun)
    ensures r.guard == DonationGuard(account, amount, parseFloat)
    ensures r.guard == NoWallet ==> r.toasts == [Warning(WalletWarning)]
    ensures r.guard == InvalidAmount ==> r.toasts == [Warning(AmountWarning)]
    ensures r.guard == Proceed ==> r.toasts == Settle(built, connected, sent)
    ensures r.refetched <==> r.guard == Proceed && SettledWell(r.toasts)
    ensures r.amountAfter == if r.refetched then "" else amount
  {
    match DonationGuard(account, amount, parseFloat)
    case NoWallet => DonationRun(NoWallet, [Warning(WalletWarning)], amount, false)
    case InvalidAmount => DonationRun(InvalidAmount, [Warning(AmountWarning)], amount, false)
    case Proceed =>
      var toasts := Settle(built, connected, sent);
      if SettledWell(toasts) then DonationRun(Proceed, toasts, "", true)
      else DonationRun(Proceed, toasts, amount, false)
  }

  /**
   * A donation reloads the campaign and clears the amount exactly when the
   * guard passed, the clause was built, a connection existed, and the receipt
   * is either not yet available or did not revert.
   */
  lemma DonationReloadsExactlyWhenAccepted(account: Option<string>, amount: string, parseFloat: string -> Option<real>,
                                           built: Built, connected: bool, sent: Sent)
    ensures var r := HandleDonate(account, amount, parseFloat, built, connected, sent);
            r.refetched <==>
              && DonationGuard(account, amount, parseFloat) == Proceed
              && built.Built? && connected
              && (sent == SentTx(None) || sent == SentTx(Some(TxReceipt(false))))
  {
  }

  /** A reverted donation never clears the amount or reloads the campaign. */
  lemma RevertedDonationKeepsAmount(account: Option<string>, amount: string, parseFloat: string -> Option<real>)
    ensures var r := HandleDonate(account, amount, parseFloat, Built, true, SentTx(Some(TxReceipt(true))));
            r.amountAfter == amount && !r.refetched
  {
  }

  datatype WithdrawRun = WithdrawRun(toasts: seq<Notice>, refetched: bool)

  /** `handleWithdraw`: silent without a wallet or a campaign; otherwise the same receipt reading as donations. */
  function HandleWithdraw(account: Option<string>, campaign: Option<Campaign>, built: Built, connected: bool, sent: Sent)
    : (r: WithdrawRun)
    ensures r.toasts == [] <==> !IsTruthyString(account) || campaign.None?
    ensures r.toasts != [] ==> r.toasts == Settle(built, connected, sent)
    ensures r.refetched <==> SettledWell(r.toasts)
  {
    if !IsTruthyString(account) || campaign.None? then WithdrawRun([], false)
    else
      var toasts := Settle(built, connected, sent);
      WithdrawRun(toasts, SettledWell(toasts))
  }

  /**
   * Once a donation passes its guard, it and a withdrawal by the same wallet
   * report the same transaction outcome the same way and reload alike.
   */
  lemma DonationAndWithdrawalSettleAlike(account: Option<string>, amount: string, parseFloat: string -> Option<real>,
                                         campaign: Campaign, built: Built, connected: bool, sent: Sent)
    requires DonationGuard(account, amount, parseFloat) == Proceed
    ensures var d := HandleDonate(account, amount, parseFloat, built, connected, sent);
            var w := HandleWithdraw(account, Some(campaign), built, connected, sent);
            d.toasts == w.toasts && d.refetched == w.refetched
  {
  }
}
