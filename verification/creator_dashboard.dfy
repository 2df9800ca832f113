/**
 * The creator dashboard: which view a visitor gets, the trust-score colour and
 * label, and the success rate.
 */
module CreatorDashboard {
  import opened Wrappers
  import opened Records
  import opened Numbers

  /** The four trust tiers, from the top. */
  datatype Tier = Excellent | Good | Fair | Building

  /** Reference definition of the tiers: `[80, ∞)`, `[60, 80)`, `[40, 60)` and below 40. */
  function TierOf(score: int): (t: Tier)
    ensures t == Excellent <==> score >= 80
    ensures t == Good <==> 60 <= score < 80
    ensures t == Fair <==> 40 <= score < 60
    ensures t == Building <==> score < 40
  {
    if score >= 80 then Excellent else if score >= 60 then Good else if score >= 40 then Fair else Building
  }

  function Rank(t: Tier): nat {
    match t
    case Building => 0
    case Fair => 1
    case Good => 2
    case Excellent => 3
  }

  /** A higher score never lands in a lower tier. */
  lemma TierMonotone(a: int, b: int)
    requires a <= b
    ensures Rank(TierOf(a)) <= Rank(TierOf(b))
  {
  }

  function ColorOf(t: Tier): string {
    match t
    case Excellent => "green"
    case Good => "blue"
    case Fair => "orange"
    case Building => "red"
  }

  function NameOf(t: Tier): string {
    match t
    case Excellent => "Excellent"
    case Good => "Good"
    case Fair => "Fair"
    case Building => "Building"
  }

  /** `getTrustScoreColor(score)`. */
  function TrustScoreColor(score: int): (color: string)
    ensures color == ColorOf(TierOf(score))
  {
    if score >= 80 then "green"
    else if score >= 60 then "blue"
    else if score >= 40 then "orange"
    else "red"
  }

  /** `getTrustScoreLabel(score)`. */
  function TrustScoreLabel(score: int): (name: string)
    ensures name == NameOf(TierOf(score))
  {
    if score >= 80 then "Excellent"
    else if score >= 60 then "Good"
    else if score >= 40 then "Fair"
    else "Building"
  }

  /** Colour and label always name the same tier: two scores share a colour exactly when they share a label. */
  lemma ColorAndLabelAgree(a: int, b: int)
    ensures TrustScoreColor(a) == TrustScoreColor(b) <==> TrustScoreLabel(a) == TrustScoreLabel(b)
  {
  }

  /**
   * The success rate, as a percentage; the card is shown only when the creator
   * has at least one campaign.
   */
  function SuccessRate(p: CreatorProfile): (rate: Option<real>)
    ensures rate.Some? <==> p.totalCampaigns > 0
    ensures rate.Some? ==> rate.value * (p.totalCampaigns as real) == (p.successfulCampaigns as real) * 100.0
  {
    if p.totalCampaigns > 0 then
      Some((p.successfulCampaigns as real) / (p.totalCampaigns as real) * 100.0)
    else None
  }

  /**
   * The rate lies in `[0, 100]` when the successful count is within the total,
   * and is exactly 100 when every campaign succeeded.
   */
  lemma SuccessRateBounds(p: CreatorProfile)
    requires p.totalCampaigns > 0
    ensures var rate := SuccessRate(p).value;
            && (0 <= p.successfulCampaigns <= p.totalCampaigns ==> 0.0 <= rate <= 100.0)
            && (rate == 100.0 <==> p.successfulCampaigns == p.totalCampaigns)
  {
    var rate := SuccessRate(p).value;
    var s, t := p.successfulCampaigns as real, p.totalCampaigns as real;
    assert rate * t == s * 100.0;
    ScaleKeepsOrder(0.0, rate, t);
    ScaleKeepsOrder(0.0, s, 100.0);
    ScaleKeepsOrder(rate, 100.0, t);
    ScaleKeepsOrder(s, t, 100.0);
    if rate == 100.0 {
      assert s * 100.0 == t * 100.0;
      ScaleCancels(s, t, 100.0);
    }
    if p.successfulCampaigns == p.totalCampaigns {
      assert rate * t == 100.0 * t;
      ScaleCancels(rate, 100.0, t);
    }
  }

  /** How the profile fetch ended: an exception, or a body with `success` and maybe `data`. */
  datatype ProfileReply = ProfileThrew | ProfileJson(success: bool, data: Option<CreatorProfile>)

  /** The profile state after a fetch: set only by a successful body; otherwise it keeps its value. */
  function AfterFetch(before: Option<CreatorProfile>, reply: ProfileReply): (after: Option<CreatorProfile>)
    ensures reply.ProfileJson? && reply.success ==> after == reply.data
    ensures !(reply.ProfileJson? && reply.success) ==> after == before
  {
    if reply.ProfileJson? && reply.success then reply.data else before
  }

  datatype View = ConnectWallet | Loading | NoCampaignsYet | Dashboard(profile: CreatorProfile, successRate: Option<real>)

  /**
   * The page: no wallet asks to connect one, then a spinner while loading,
   * then the empty state for no profile or one that does not exist.
   */
  function ViewFor(account: Option<string>, loading: bool, profile: Option<CreatorProfile>): (v: View)
    ensures v == ConnectWallet <==> !IsTruthyString(account)
    ensures v == Loading <==> IsTruthyString(account) && loading
    ensures v.Dashboard? <==> IsTruthyString(account) && !loading && profile.Some? && profile.value.profileExists
    ensures v.Dashboard? ==> v.profile == profile.value && v.successRate == SuccessRate(profile.value)
  {
    if !IsTruthyString(account) then ConnectWallet
    else if loading then Loading
    else if profile.None? || !profile.value.profileExists then NoCampaignsYet
    else Dashboard(profile.value, SuccessRate(profile.value))
  }
}
