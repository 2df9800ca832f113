/**
 * The campaign browser page: the "all" / "my" filter kept in the URL's query
 * string, the fetch each filter makes, the case-insensitive "my campaigns"
 * filter, and the progress and time-left figures on each card.
 */
module CampaignBrowser {
  import opened Wrappers
  import opened Text
  import opened Records
  import opened Seqs
  import opened Countdown
  import opened Numbers

  datatype ListFilter = AllCampaigns | MyCampaigns

  /** A query string as `URLSearchParams` holds it: name/value pairs in order, names may repeat. */
  type Query = seq<(string, string)>

  const FilterKey := "filter"
  const MyValue := "my"

  /** `params.get(key)`: the value of the first pair with that name. */
  function Get(q: Query, key: string): (r: Option<string>)
    ensures r.None? <==> forall i :: 0 <= i < |q| ==> q[i].0 != key
    ensures r.Some? ==> exists i :: 0 <= i < |q| && q[i] == (key, r.value) && forall j :: 0 <= j < i ==> q[j].0 != key
  {
    if |q| == 0 then None
    else if q[0].0 == key then Some(q[0].1)
    else
      var r := Get(q[1..], key);
      if r.Some? then
        var i :| 0 <= i < |q[1..]| && q[1..][i] == (key, r.value) && forall j :: 0 <= j < i ==> q[1..][j].0 != key;
        assert q[i + 1] == (key, r.value);
        r
      else r
  }

  /** Keeps the pairs whose name is not `key`. */
  function OtherName(key: string): ((string, string)) -> bool {
    (pair: (string, string)) => pair.0 != key
  }

  /** `params.delete(key)`: every pair with that name is removed, the others keep their order. */
  function Delete(q: Query, key: string): (r: Query)
    ensures forall i :: 0 <= i < |r| ==> r[i].0 != key
    ensures r == Filter(q, OtherName(key))
  {
    if |q| == 0 then []
    else (if q[0].0 == key then [] else [q[0]]) + Delete(q[1..], key)
  }

  /**
   * `params.set(key, value)`: the first pair with that name takes the value
   * and the later ones are removed; without one, the pair is appended.
   */
  function Set(q: Query, key: string, value: string): (r: Query)
    ensures |r| >= 1
  {
    if |q| == 0 then [(key, value)]
    else if q[0].0 == key then [(key, value)] + Delete(q[1..], key)
    else [q[0]] + Set(q[1..], key, value)
  }

  /** After `set`, `get` answers the value set. */
  lemma {:induction false} GetAfterSet(q: Query, key: string, value: string)
    ensures Get(Set(q, key, value), key) == Some(value)
  {
    if |q| > 0 && q[0].0 != key {
      GetAfterSet(q[1..], key, value);
    }
  }

  /** `set` and `delete` leave the pairs of every other name as they were, in order. */
  lemma {:induction false} SetKeepsOthers(q: Query, key: string, value: string)
    ensures Delete(Set(q, key, value), key) == Delete(q, key)
  {
    if |q| == 0 {
    } else if q[0].0 == key {
      DeleteIdempotent(q[1..], key);
      assert Set(q, key, value)[1..] == Delete(q[1..], key);
    } else {
      SetKeepsOthers(q[1..], key, value);
      assert Set(q, key, value)[1..] == Set(q[1..], key, value);
    }
  }

  lemma {:induction false} DeleteIdempotent(q: Query, key: string)
    ensures Delete(Delete(q, key), key) == Delete(q, key)
  {
    if |q| > 0 {
      DeleteIdempotent(q[1..], key);
      if q[0].0 != key {
        assert Delete(q, key) == [q[0]] + Delete(q[1..], key);
        assert Delete(q, key)[1..] == Delete(q[1..], key);
      } else {
        assert Delete(q, key) == Delete(q[1..], key);
      }
    }
  }

  /** The filter the page starts with: "my" exactly when the URL's first `filter` value is `my`. */
  function InitialFilter(q: Query): (f: ListFilter)
    ensures f == MyCampaigns <==> Get(q, FilterKey) == Some(MyValue)
  {
    if Get(q, FilterKey) == Some(MyValue) then MyCampaigns else AllCampaigns
  }

  /** The query the page writes back whenever the filter changes. */
  function SyncUrl(q: Query, f: ListFilter): (r: Query)
    ensures Get(r, FilterKey) == if f == MyCampaigns then Some(MyValue) else None
  {
    if f == MyCampaigns then
      GetAfterSet(q, FilterKey, MyValue);
      Set(q, FilterKey, MyValue)
    else Delete(q, FilterKey)
  }

  /**
   * The URL round trip: a page loaded from the query the page wrote starts
   * with the filter that was written, and no other parameter is disturbed.
   */
  lemma UrlRoundTrip(q: Query, f: ListFilter)
    ensures InitialFilter(SyncUrl(q, f)) == f
    ensures Delete(SyncUrl(q, f), FilterKey) == Delete(q, FilterKey)
  {
    if f == MyCampaigns {
      GetAfterSet(q, FilterKey, MyValue);
      SetKeepsOthers(q, FilterKey, MyValue);
    } else {
      DeleteIdempotent(q, FilterKey);
    }
  }

  /** Which listing the page asks the backend for. */
  datatype Endpoint = ListingPage | ActiveVerified

  /** How a fetch ends: an exception (network, JSON), or a body with `success` and maybe `data`. */
  datatype FetchReply = FetchThrew | Reply(success: bool, data: Option<seq<Campaign>>)

  datatype Loaded = Loaded(campaigns: seq<Campaign>, asked: Option<Endpoint>)

  /**
   * `fetchCampaigns`: "my" with no wallet gives an empty list without asking;
   * "my" asks the default page of the whole listing; "all" asks the
   * active-and-verified listing. Any failure leaves the list empty.
   */
  function FetchCampaigns(f: ListFilter, account: Option<string>, fetch: Endpoint -> FetchReply): (r: Loaded)
    ensures r.asked.None? <==> f == MyCampaigns && !IsTruthyString(account)
    ensures r.asked.Some? ==> r.asked.value == (if f == MyCampaigns then ListingPage else ActiveVerified)
    ensures r.asked.None? ==> r.campaigns == []
    ensures r.asked.Some? ==>
              var reply := fetch(r.asked.value);
              r.campaigns == if reply.Reply? && reply.success && reply.data.Some? then reply.data.value else []
  {
    if f == MyCampaigns && !IsTruthyString(account) then Loaded([], None)
    else
      var endpoint := if f == MyCampaigns then ListingPage else ActiveVerified;
      match fetch(endpoint)
      case FetchThrew => Loaded([], Some(endpoint))
      case Reply(success, data) =>
        Loaded(if success then (if data.Some? then data.value else []) else [], Some(endpoint))
  }

  predicate CreatedBy(c: Campaign, account: string) {
    EqualsIgnoreCase(c.creator, account)
  }

  /** The cards shown: under "my" with a wallet, the campaigns whose creator matches it ignoring case. */
  function DisplayList(f: ListFilter, account: Option<string>, campaigns: seq<Campaign>): (r: seq<Campaign>)
    ensures !(f == MyCampaigns && IsTruthyString(account)) ==> r == campaigns
    ensures forall c :: c in r <==> c in campaigns && (f == MyCampaigns && IsTruthyString(account) ==> CreatedBy(c, account.value))
  {
    if f == MyCampaigns && IsTruthyString(account) then
      var keep := (c: Campaign) => CreatedBy(c, account.value);
      forall c ensures c in Filter(campaigns, keep) <==> c in campaigns && keep(c) {
        FilterMembership(campaigns, keep, c);
      }
      Filter(campaigns, keep)
    else campaigns
  }

  /** Filtering the shown list again changes nothing, and the shown cards keep the fetched order. */
  lemma DisplayListStable(f: ListFilter, account: Option<string>, a: seq<Campaign>, b: seq<Campaign>)
    ensures DisplayList(f, account, DisplayList(f, account, a)) == DisplayList(f, account, a)
    ensures DisplayList(f, account, a + b) == DisplayList(f, account, a) + DisplayList(f, account, b)
  {
    if f == MyCampaigns && IsTruthyString(account) {
      var keep := (c: Campaign) => CreatedBy(c, account.value);
      FilterAll(Filter(a, keep), keep);
      FilterConcat(a, b, keep);
    }
  }

  /** `parseFloat(x) || 0`: `NaN` and `0` both become `0`. */
  function OrZero(x: Option<real>): real {
    if x.Some? then x.value else 0.0
  }

  /** `calculateProgress(raised, goal)`: `0` for a zero or unparsable goal, otherwise the percentage. */
  function CalculateProgress(raised: string, goal: string, parseFloat: string -> Option<real>): (p: real)
    ensures OrZero(parseFloat(goal)) == 0.0 ==> p == 0.0
    ensures OrZero(parseFloat(goal)) != 0.0 ==> p * OrZero(parseFloat(goal)) == OrZero(parseFloat(raised)) * 100.0
  {
    var r := OrZero(parseFloat(raised));
    var g := OrZero(parseFloat(goal));
    if g != 0.0 then r / g * 100.0 else 0.0
  }

  /**
   * With a positive goal, the bar is within `[0, 100]` while the raised amount
   * is within `[0, goal]`, and reaches 100 exactly when the goal is met.
   */
  lemma ProgressBounds(raised: string, goal: string, parseFloat: string -> Option<real>)
    requires OrZero(parseFloat(goal)) > 0.0
    ensures var p := CalculateProgress(raised, goal, parseFloat);
            var r, g := OrZero(parseFloat(raised)), OrZero(parseFloat(goal));
            && (0.0 <= r ==> 0.0 <= p)
            && (r <= g ==> p <= 100.0)
            && (p >= 100.0 <==> r >= g)
  {
    var p := CalculateProgress(raised, goal, parseFloat);
    var r, g := OrZero(parseFloat(raised)), OrZero(parseFloat(goal));
    assert p * g == r * 100.0;
    assert 0.0 <= r ==> 0.0 <= p by {
      ScaleKeepsOrder(0.0, r, 100.0);
      ScaleKeepsOrder(0.0, p, g);
    }
    assert r <= g ==> p <= 100.0 by {
      ScaleKeepsOrder(r, g, 100.0);
      ScaleKeepsOrder(p, 100.0, g);
    }
    assert p >= 100.0 <==> r >= g by {
      ScaleKeepsOrder(100.0, p, g);
      ScaleKeepsOrder(g, r, 100.0);
      assert 100.0 * g == g * 100.0;
      assert p >= 100.0 <==> p * g >= 100.0 * g;
      assert r >= g <==> r * 100.0 >= g * 100.0;
    }
  }

  const LeftSuffix := "left"

  /** The card's time-left label. */
  function FormatTimeLeft(deadline: int, now: int): (shown: string)
    ensures shown == "Ending soon" <==> deadline - now < SecondsPerHour
    ensures deadline - now >= SecondsPerDay ==>
              shown == Decimal((deadline - now) / SecondsPerDay) + " days " + LeftSuffix
    ensures SecondsPerHour <= deadline - now < SecondsPerDay ==>
              shown == Decimal((deadline - now) / SecondsPerHour) + " hours " + LeftSuffix
  {
    Label(Bucket(deadline, now), LeftSuffix)
  }
}
