/**
 * The Google Ads connector: the configured customer ids, and `extract`, which streams one
 * campaign-metrics query per customer and builds a campaigns table (each campaign once per
 * customer) and an insights table (one row per result row). The search stream of each customer is
 * an input: the result rows it delivered, and whether it then raised.
 */
module GoogleAds {
  import opened Json
  import opened Seqs
  import opened Text
  import opened Dates

  // ---------------------------------------------------------------------------------------------
  // Customer ids

  /**
   * `self.customer_ids`: the argument, or the setting when the argument is falsy, split on
   * commas; `[]` when both are falsy.
   */
  function CustomerIds(given: Option<string>, setting: Option<string>): seq<string> {
    var current := if given.Some? && given.value != "" then given else setting;
    if current.Some? && current.value != "" then Split(current.value, ',') else []
  }

  /** The ids are the pieces between commas of the configured string, which joining them gives back. */
  lemma CustomerIdsSplit(given: Option<string>, setting: Option<string>)
    ensures var current := if given.Some? && given.value != "" then given else setting;
      && (current.None? || current.value == "" <==> CustomerIds(given, setting) == [])
      && (current.Some? && current.value != "" ==> Join(CustomerIds(given, setting), ',') == current.value)
    ensures forall id, i :: id in CustomerIds(given, setting) && 0 <= i < |id| ==> id[i] != ','
  {
    var current := if given.Some? && given.value != "" then given else setting;
    if current.Some? && current.value != "" {
      JoinSplit(current.value, ',');
      SplitPartsFree(current.value, ',');
    }
  }

  /** `customer_id.strip().replace("-", "")`. */
  function Clean(id: string): (c: string)
    ensures forall i :: 0 <= i < |c| ==> c[i] != '-'
  {
    RemoveChar(Strip(id), '-')
  }

  /** The customers queried, in order: the cleaned ids that are not empty. */
  function Customers(raw: seq<string>): (cs: seq<string>)
    ensures forall k :: 0 <= k < |cs| ==> cs[k] != ""
    decreases |raw|
  {
    if raw == [] then []
    else
      var n := |raw| - 1;
      Customers(raw[..n]) + (if Clean(raw[n]) == "" then [] else [Clean(raw[n])])
  }

  /** Never more customers than configured ids. */
  lemma {:induction false} CustomersFewer(raw: seq<string>)
    ensures |Customers(raw)| <= |raw|
    decreases |raw|
  {
    if raw != [] {
      CustomersFewer(raw[..|raw| - 1]);
    }
  }

  /** An id that cleaning leaves as it is, and not empty. */
  predicate AlreadyClean(id: string) {
    id != "" && Clean(id) == id
  }

  /** Ids that are already clean are all queried, as they are and in order. */
  lemma {:induction false} CustomersKept(raw: seq<string>)
    requires forall k :: 0 <= k < |raw| ==> AlreadyClean(raw[k])
    ensures Customers(raw) == raw
    decreases |raw|
  {
    if raw != [] {
      var n := |raw| - 1;
      assert forall k :: 0 <= k < n ==> raw[..n][k] == raw[k];
      CustomersKept(raw[..n]);
      assert AlreadyClean(raw[n]);
      InitLast(raw);
    }
  }

  /** Ids that clean to nothing are all dropped. */
  lemma {:induction false} CustomersEmpty(raw: seq<string>)
    requires forall k :: 0 <= k < |raw| ==> Clean(raw[k]) == ""
    ensures Customers(raw) == []
    decreases |raw|
  {
    if raw != [] {
      CustomersEmpty(raw[..|raw| - 1]);
    }
  }

  // ---------------------------------------------------------------------------------------------
  // The query and its results

  /** `segments.date BETWEEN '<start>' AND '<end>'`, both as `%Y-%m-%d`. */
  function Window(start: DateTime, stop: DateTime): string {
    "segments.date BETWEEN '" + IsoDate(start) + "' AND '" + IsoDate(stop) + "'"
  }

  /** The fields the query selects, in order. */
  const Selected := ["campaign.id", "campaign.name", "campaign.status", "campaign.advertising_channel_type",
    "metrics.impressions", "metrics.clicks", "metrics.cost_micros", "metrics.conversions", "segments.date"]

  /** `search_stream(customer_id=..., query=...)`: the query is the selected fields of `campaign` in the window. */
  datatype Search = Search(customerId: string, fields: seq<string>, window: string)

  /** One result row of the stream (the `status` and channel enums by their names). */
  datatype AdRow = AdRow(campaignId: int, campaignName: Json, status: string, channel: string,
    date: Json, impressions: int, clicks: int, costMicros: int, conversions: Json)

  /** A customer's stream: the batches of result rows it delivered, and whether iterating it then raised. */
  datatype Stream = Stream(batches: seq<seq<AdRow>>, raised: bool)

  /** The result rows a stream delivered, in order. */
  function Rows(s: Stream): seq<AdRow> {
    Concat(s.batches)
  }

  /** A `google_ads_campaigns` row. */
  datatype Campaign = Campaign(customerId: string, campaignId: string, name: Json, status: string, channel: string)

  /** A `google_ads_insights` row; `cost` is `cost_micros / 1000000.0`. */
  datatype Insight = Insight(customerId: string, campaignId: string, date: Json, impressions: int,
    clicks: int, cost: real, conversions: Json)

  /** `str(row.campaign.id)`. */
  function CampId(row: AdRow): string {
    IntToString(row.campaignId)
  }

  function CampaignRow(cid: string, row: AdRow): Campaign {
    Campaign(cid, CampId(row), row.campaignName, row.status, row.channel)
  }

  function InsightRow(cid: string, row: AdRow): Insight {
    Insight(cid, CampId(row), row.date, row.impressions, row.clicks, row.costMicros as real / 1000000.0, row.conversions)
  }

  function InsightFor(cid: string): AdRow -> Insight {
    (row: AdRow) => InsightRow(cid, row)
  }

  /** The campaign ids of some result rows. */
  function Ids(rows: seq<AdRow>): set<string> {
    set i | 0 <= i < |rows| :: CampId(rows[i])
  }

  /** The campaigns of one customer: a row per result row whose campaign id has not been seen before. */
  function Campaigns(cid: string, rows: seq<AdRow>): seq<Campaign>
    decreases |rows|
  {
    if rows == [] then []
    else
      var n := |rows| - 1;
      Campaigns(cid, rows[..n]) + (if CampId(rows[n]) in Ids(rows[..n]) then [] else [CampaignRow(cid, rows[n])])
  }

  lemma IdsSnoc(rows: seq<AdRow>, row: AdRow)
    ensures Ids(rows + [row]) == Ids(rows) + {CampId(row)}
  {
    var xs := rows + [row];
    assert forall i :: 0 <= i < |rows| ==> xs[i] == rows[i];
    assert xs[|rows|] == row;
  }

  lemma CampaignsSnoc(cid: string, rows: seq<AdRow>, row: AdRow)
    ensures Campaigns(cid, rows + [row])
      == Campaigns(cid, rows) + (if CampId(row) in Ids(rows) then [] else [CampaignRow(cid, row)])
  {
    assert (rows + [row])[..|rows|] == rows;
  }

  /** The campaign ids of some campaign rows. */
  function CampaignIds(cs: seq<Campaign>): set<string> {
    set i | 0 <= i < |cs| :: cs[i].campaignId
  }

  lemma CampaignIdsSnoc(cs: seq<Campaign>, c: Campaign)
    ensures CampaignIds(cs + [c]) == CampaignIds(cs) + {c.campaignId}
  {
    var xs := cs + [c];
    assert forall i :: 0 <= i < |cs| ==> xs[i] == cs[i];
    assert xs[|cs|] == c;
  }

  /**
   * Each campaign appears once per customer: the rows carry distinct ids, exactly the ids of the
   * result rows, and all name the customer.
   */
  lemma {:induction false} CampaignsOnce(cid: string, rows: seq<AdRow>)
    ensures var cs := Campaigns(cid, rows);
      && CampaignIds(cs) == Ids(rows)
      && (forall i, j :: 0 <= i < j < |cs| ==> cs[i].campaignId != cs[j].campaignId)
      && (forall i :: 0 <= i < |cs| ==> cs[i].customerId == cid)
    decreases |rows|
  {
    if rows != [] {
      var n := |rows| - 1;
      var init := rows[..n];
      CampaignsOnce(cid, init);
      IdsSnoc(init, rows[n]);
      assert init + [rows[n]] == rows;
      var a := Campaigns(cid, init);
      if CampId(rows[n]) !in Ids(init) {
        var c := CampaignRow(cid, rows[n]);
        var cs := a + [c];
        assert Campaigns(cid, rows) == cs;
        CampaignIdsSnoc(a, c);
        forall i, j | 0 <= i < j < |cs| ensures cs[i].campaignId != cs[j].campaignId {
          if j == |a| {
            assert cs[i].campaignId in CampaignIds(a) by { assert cs[i] == a[i]; }
          } else {
            assert cs[i] == a[i] && cs[j] == a[j];
          }
        }
      } else {
        assert Campaigns(cid, rows) == a;
      }
    }
  }

  /** The first result row of each campaign gives that campaign's row. */
  lemma {:induction false} CampaignsFirst(cid: string, rows: seq<AdRow>, k: int)
    requires 0 <= k < |rows| && CampId(rows[k]) !in Ids(rows[..k])
    ensures CampaignRow(cid, rows[k]) in Campaigns(cid, rows)
    decreases |rows|
  {
    var n := |rows| - 1;
    if k < n {
      assert rows[..n][..k] == rows[..k];
      CampaignsFirst(cid, rows[..n], k);
    }
  }

  /** The campaigns of every customer queried, customer after customer. */
  function AllCampaigns(cids: seq<string>, streams: string -> Stream): seq<Campaign>
    decreases |cids|
  {
    if cids == [] then []
    else
      var n := |cids| - 1;
      AllCampaigns(cids[..n], streams) + Campaigns(cids[n], Rows(streams(cids[n])))
  }

  /** The insights of every customer queried, customer after customer. */
  function AllInsights(cids: seq<string>, streams: string -> Stream): seq<Insight>
    decreases |cids|
  {
    if cids == [] then []
    else
      var n := |cids| - 1;
      AllInsights(cids[..n], streams) + Map(Rows(streams(cids[n])), InsightFor(cids[n]))
  }

  lemma AppendAssoc<T>(x: seq<T>, y: seq<T>, z: seq<T>)
    ensures (x + y) + z == x + (y + z)
  {
  }

  lemma AllSnoc(cids: seq<string>, c: string, streams: string -> Stream)
    ensures AllCampaigns(cids + [c], streams) == AllCampaigns(cids, streams) + Campaigns(c, Rows(streams(c)))
    ensures AllInsights(cids + [c], streams) == AllInsights(cids, streams) + Map(Rows(streams(c)), InsightFor(c))
  {
    assert (cids + [c])[..|cids|] == cids;
  }

  /**
   * Customers are independent: what one customer's stream delivers, or whether it raised, does
   * not change the campaign rows of the customers before or after it.
   */
  lemma {:induction false} CampaignsIndependent(a: seq<string>, b: seq<string>, streams: string -> Stream)
    ensures AllCampaigns(a + b, streams) == AllCampaigns(a, streams) + AllCampaigns(b, streams)
    decreases |b|
  {
    if b == [] {
      assert a + b == a;
    } else {
      var n := |b| - 1;
      var ab := a + b;
      assert ab[..|ab| - 1] == a + b[..n] && ab[|ab| - 1] == b[n];
      var last := Campaigns(b[n], Rows(streams(b[n])));
      assert AllCampaigns(ab, streams) == AllCampaigns(a + b[..n], streams) + last;
      assert AllCampaigns(b, streams) == AllCampaigns(b[..n], streams) + last;
      CampaignsIndependent(a, b[..n], streams);
      AppendAssoc(AllCampaigns(a, streams), AllCampaigns(b[..n], streams), last);
    }
  }

  /** Customers are independent for the insight rows too. */
  lemma {:induction false} InsightsIndependent(a: seq<string>, b: seq<string>, streams: string -> Stream)
    ensures AllInsights(a + b, streams) == AllInsights(a, streams) + AllInsights(b, streams)
    decreases |b|
  {
    if b == [] {
      assert a + b == a;
    } else {
      var n := |b| - 1;
      var ab := a + b;
      assert ab[..|ab| - 1] == a + b[..n] && ab[|ab| - 1] == b[n];
      var last := Map(Rows(streams(b[n])), InsightFor(b[n]));
      assert AllInsights(ab, streams) == AllInsights(a + b[..n], streams) + last;
      assert AllInsights(b, streams) == AllInsights(b[..n], streams) + last;
      InsightsIndependent(a, b[..n], streams);
      AppendAssoc(AllInsights(a, streams), AllInsights(b[..n], streams), last);
    }
  }

  /** One insight per result row of every customer, in stream order. */
  lemma {:induction false} InsightsPerRow(cids: seq<string>, streams: string -> Stream)
    ensures |AllInsights(cids, streams)| == |Concat(Map(cids, (c: string) => Rows(streams(c))))|
    decreases |cids|
  {
    if cids != [] {
      var n := |cids| - 1;
      InsightsPerRow(cids[..n], streams);
      ConcatMapSnoc(cids, (c: string) => Rows(streams(c)), n);
      assert cids[..n + 1] == cids;
    }
  }

  // ---------------------------------------------------------------------------------------------
  // extract

  /** What the loop over one customer's rows has built after the rows `done`. */
  predicate Built(cid: string, done: seq<AdRow>, seen: set<string>, campaigns: seq<Campaign>, insights: seq<Insight>) {
    seen == Ids(done) && campaigns == Campaigns(cid, done) && insights == Map(done, InsightFor(cid))
  }

  /** The body of the innermost loop: a campaign row the first time its id is seen, and an insight row. */
  method AddRow(cid: string, row: AdRow, ghost done: seq<AdRow>, seen: set<string>, campaigns: seq<Campaign>, insights: seq<Insight>)
    returns (seen': set<string>, campaigns': seq<Campaign>, insights': seq<Insight>)
    requires Built(cid, done, seen, campaigns, insights)
    ensures Built(cid, done + [row], seen', campaigns', insights')
  {
    var campId := IntToString(row.campaignId);
    IdsSnoc(done, row);
    CampaignsSnoc(cid, done, row);
    MapSnoc(done, row, InsightFor(cid));
    seen', campaigns' := seen, campaigns;
    if campId !in seen {
      seen' := seen + {campId};
      campaigns' := campaigns + [Campaign(cid, campId, row.campaignName, row.status, row.channel)];
    }
    insights' := insights + [Insight(cid, campId, row.date, row.impressions, row.clicks,
      row.costMicros as real / 1000000.0, row.conversions)];
  }

  /** The loop over the rows of one batch. */
  method AddBatch(cid: string, batch: seq<AdRow>, ghost done: seq<AdRow>, seen: set<string>, campaigns: seq<Campaign>, insights: seq<Insight>)
    returns (seen': set<string>, campaigns': seq<Campaign>, insights': seq<Insight>)
    requires Built(cid, done, seen, campaigns, insights)
    ensures Built(cid, done + batch, seen', campaigns', insights')
  {
    seen', campaigns', insights' := seen, campaigns, insights;
    assert done + batch[..0] == done;
    for r := 0 to |batch|
      invariant Built(cid, done + batch[..r], seen', campaigns', insights')
    {
      seen', campaigns', insights' := AddRow(cid, batch[r], done + batch[..r], seen', campaigns', insights');
      assert batch[..r + 1] == batch[..r] + [batch[r]];
      AppendAssoc(done, batch[..r], [batch[r]]);
    }
    assert done + batch[..|batch|] == done + batch;
  }

  /** The body of the `try` for one customer: the nested loop over batches and their rows, with its own seen set. */
  method CustomerRows(cid: string, s: Stream) returns (campaigns: seq<Campaign>, insights: seq<Insight>)
    ensures campaigns == Campaigns(cid, Rows(s))
    ensures insights == Map(Rows(s), InsightFor(cid))
  {
    var seen: set<string> := {};
    campaigns, insights := [], [];
    for b := 0 to |s.batches|
      invariant Built(cid, Concat(s.batches[..b]), seen, campaigns, insights)
    {
      assert s.batches[..b + 1][..b] == s.batches[..b];
      seen, campaigns, insights := AddBatch(cid, s.batches[b], Concat(s.batches[..b]), seen, campaigns, insights);
    }
    assert s.batches[..|s.batches|] == s.batches;
  }

  function SearchFor(window: string): string -> Search {
    (cid: string) => Search(cid, Selected, window)
  }

  lemma CustomersSnoc(raw: seq<string>, i: int)
    requires 0 <= i < |raw|
    ensures Customers(raw[..i + 1]) == Customers(raw[..i]) + (if Clean(raw[i]) == "" then [] else [Clean(raw[i])])
  {
    assert raw[..i + 1][..i] == raw[..i];
  }

  /**
   * `extract(date_start, date_stop)`: one search per cleaned, non-empty customer id, in order;
   * a customer whose stream raises keeps the rows it delivered and the loop moves on.
   */
  method Extract(raw: seq<string>, start: DateTime, stop: DateTime, streams: string -> Stream)
    returns (searches: seq<Search>, campaigns: seq<Campaign>, insights: seq<Insight>)
    ensures |searches| == |Customers(raw)|
    ensures forall k :: 0 <= k < |searches| ==> searches[k] == Search(Customers(raw)[k], Selected, Window(start, stop))
    ensures campaigns == AllCampaigns(Customers(raw), streams)
    ensures insights == AllInsights(Customers(raw), streams)
  {
    var window := Window(start, stop);
    searches, campaigns, insights := [], [], [];
    ghost var cids: seq<string> := [];
    for i := 0 to |raw|
      invariant cids == Customers(raw[..i]) && searches == Map(cids, SearchFor(window))
      invariant campaigns == AllCampaigns(cids, streams) && insights == AllInsights(cids, streams)
    {
      CustomersSnoc(raw, i);
      var cid := Clean(raw[i]);
      if cid != "" {
        MapSnoc(cids, cid, SearchFor(window));
        AllSnoc(cids, cid, streams);
        searches := searches + [Search(cid, Selected, window)];
        var cs, ins := CustomerRows(cid, streams(cid));
        campaigns, insights := campaigns + cs, insights + ins;
        cids := cids + [cid];
      }
    }
    assert raw[..|raw|] == raw;
  }
}
