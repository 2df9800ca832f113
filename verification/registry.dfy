/**
 * The read side of the registry service (`VeCareContractsService`): single
 * reads that collapse every failure to a default, the paginated listing, and
 * the active-and-verified listing.
 *
 * The ledger contract itself is abstracted as what each read call returns.
 */
module Registry {
  import opened Wrappers
  import opened Records
  import opened Seqs

  /**
   * What the registry answers: the campaign counter read, and the read of each
   * campaign id (an id with no entry answers with an empty result).
   */
  datatype Ledger = Ledger(counter: ReadOutcome<int>, rows: map<int, ReadOutcome<Campaign>>)

  function ReadOf(reg: Ledger, id: int): ReadOutcome<Campaign> {
    if id in reg.rows then reg.rows[id] else ReadEmpty
  }

  /** `getCampaign(id)`: the campaign, or `null` for an empty result and for a read that threw alike. */
  function GetCampaign(reg: Ledger, id: int): (r: Option<Campaign>)
    ensures r.None? <==> ReadOf(reg, id).ReadThrew? || ReadOf(reg, id).ReadEmpty?
    ensures r.Some? ==> ReadOf(reg, id) == Row(r.value)
  {
    match ReadOf(reg, id)
    case Row(c) => Some(c)
    case _ => None
  }

  /** Reference definition: the non-null campaigns among `ids`, in the order the ids are given. */
  function Present(reg: Ledger, ids: seq<int>): seq<Campaign> {
    if |ids| == 0 then []
    else
      var front := Present(reg, ids[..|ids| - 1]);
      match GetCampaign(reg, ids[|ids| - 1])
      case Some(c) => front + [c]
      case None => front
  }

  /** A campaign is listed for some id range exactly when one of those ids resolves to it. */
  lemma {:induction false} PresentMembership(reg: Ledger, ids: seq<int>, c: Campaign)
    ensures c in Present(reg, ids) <==> exists k :: 0 <= k < |ids| && GetCampaign(reg, ids[k]) == Some(c)
  {
    if |ids| > 0 {
      var init := ids[..|ids| - 1];
      PresentMembership(reg, init, c);
      if exists k :: 0 <= k < |ids| && GetCampaign(reg, ids[k]) == Some(c) {
        var k :| 0 <= k < |ids| && GetCampaign(reg, ids[k]) == Some(c);
        if k < |ids| - 1 {
          assert init[k] == ids[k];
        }
      }
      if c in Present(reg, init) {
        var k :| 0 <= k < |init| && GetCampaign(reg, init[k]) == Some(c);
        assert ids[k] == init[k];
      }
    }
  }

  /** At most one campaign per id. */
  lemma {:induction false} PresentLength(reg: Ledger, ids: seq<int>)
    ensures |Present(reg, ids)| <= |ids|
  {
    if |ids| > 0 {
      PresentLength(reg, ids[..|ids| - 1]);
    }
  }

  /** The last id `getAllCampaigns` reads: `Math.min(startId + limit - 1, counter)`. */
  function EndId(startId: int, limit: int, counter: int): int {
    Min(startId + limit - 1, counter)
  }

  /**
   * `getAllCampaigns(startId, limit)`. `queried` is the sequence of ids read,
   * in the order they were read. When the counter read fails the listing is
   * empty; when it answers with no value the bound is `NaN` and no id is read.
   */
  method GetAllCampaigns(reg: Ledger, startId: int, limit: int) returns (campaigns: seq<Campaign>, queried: seq<int>)
    ensures forall k :: 0 <= k < |queried| ==> queried[k] == startId + k
    ensures !reg.counter.Row? ==> queried == [] && campaigns == []
    ensures reg.counter.Row? ==> |queried| == Max(0, EndId(startId, limit, reg.counter.value) - startId + 1)
    ensures reg.counter.Row? ==> queried == IdRange(startId, EndId(startId, limit, reg.counter.value))
    ensures reg.counter.Row? ==> forall k :: 0 <= k < |queried| ==> queried[k] <= reg.counter.value
    ensures |campaigns| <= |queried| <= Max(0, limit)
    ensures campaigns == Present(reg, queried)
  {
    campaigns, queried := [], [];
    match reg.counter {
      case ReadThrew =>
      case ReadEmpty =>
      case Row(total) =>
        var endId := Min(startId + limit - 1, total);
        var i := startId;
        while i <= endId
          invariant startId <= i <= Max(startId, endId + 1)
          invariant queried == IdRange(startId, i - 1)
          invariant campaigns == Present(reg, queried)
        {
          var campaign := GetCampaign(reg, i);
          assert (queried + [i])[..|queried|] == queried;
          queried := queried + [i];
          if campaign.Some? {
            campaigns := campaigns + [campaign.value];
          }
          i := i + 1;
        }
        PresentLength(reg, queried);
    }
  }

  /** The campaigns `getActiveVerifiedCampaigns` keeps: active, verified and not past the deadline. */
  predicate IsLive(c: Campaign, now: int) {
    c.isActive && c.isVerified && c.deadline > now
  }

  /** The fixed first page the active listing scans. */
  const ActiveScanLimit := 100

  /**
   * `getActiveVerifiedCampaigns()` at time `now` (seconds): the live campaigns
   * among ids `1 .. min(100, counter)`, in id order. Campaigns past the hundredth
   * id are never seen.
   */
  method GetActiveVerifiedCampaigns(reg: Ledger, now: int) returns (live: seq<Campaign>)
    ensures forall i :: 0 <= i < |live| ==> IsLive(live[i], now)
    ensures forall c :: c in live <==>
              && reg.counter.Row?
              && IsLive(c, now)
              && exists id :: 1 <= id <= Min(ActiveScanLimit, reg.counter.value) && GetCampaign(reg, id) == Some(c)
    ensures reg.counter.Row? ==>
              live == Filter(Present(reg, IdRange(1, Min(ActiveScanLimit, reg.counter.value))), c => IsLive(c, now))
    ensures |live| <= ActiveScanLimit
  {
    var all, queried := GetAllCampaigns(reg, 1, ActiveScanLimit);
    live := Filter(all, c => IsLive(c, now));
    forall c
      ensures c in live <==>
              && reg.counter.Row?
              && IsLive(c, now)
              && exists id :: 1 <= id <= Min(ActiveScanLimit, reg.counter.value) && GetCampaign(reg, id) == Some(c)
    {
      FilterMembership(all, c => IsLive(c, now), c);
      PresentMembership(reg, queried, c);
      if reg.counter.Row? {
        assert queried == IdRange(1, Min(ActiveScanLimit, reg.counter.value));
        if exists id :: 1 <= id <= Min(ActiveScanLimit, reg.counter.value) && GetCampaign(reg, id) == Some(c) {
          var id :| 1 <= id <= Min(ActiveScanLimit, reg.counter.value) && GetCampaign(reg, id) == Some(c);
          assert queried[id - 1] == id;
        }
      }
    }
    if reg.counter.Row? {
      assert queried == IdRange(1, Min(ActiveScanLimit, reg.counter.value));
    }
  }

  /** `getCreatorProfile`: the profile, or `null` for an empty result and for a read that threw. */
  function GetCreatorProfile(read: ReadOutcome<CreatorProfile>): (r: Option<CreatorProfile>)
    ensures r.Some? <==> read.Row?
    ensures r.Some? ==> r.value == read.value
  {
    if read.Row? then Some(read.value) else None
  }

  /**
   * `getDonation`: the formatted amount, or `"0"` when the read fails. An empty
   * result makes the amount conversion throw, which the same handler catches.
   */
  function GetDonation(read: ReadOutcome<string>): (r: string)
    ensures read.Row? ==> r == read.value
    ensures !read.Row? ==> r == "0"
  {
    if read.Row? then read.value else "0"
  }

  /** `isGoalReached`: `Boolean(result[0])`, so an empty result and a failed read are both `false`. */
  function IsGoalReached(read: ReadOutcome<bool>): (r: bool)
    ensures r <==> read == Row(true)
  {
    read.Row? && read.value
  }

  /**
   * `getCampaignUpdateCount`: `Number(result[0])`; a failed read gives `0`
   * but an empty result gives `NaN`.
   */
  function GetCampaignUpdateCount(read: ReadOutcome<int>): (r: IntParse)
    ensures read.ReadThrew? ==> r == Int(0)
    ensures read.ReadEmpty? ==> r == NaN
    ensures read.Row? ==> r == Int(read.value)
  {
    match read
    case ReadThrew => Int(0)
    case ReadEmpty => NaN
    case Row(n) => Int(n)
  }
}
