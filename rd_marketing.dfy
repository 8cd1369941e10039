/**
 * The RD Station Marketing connector: the memoised OAuth access token, the request helper that
 * honours `Retry-After`, the day-by-day analytics extraction, the offset-paged webhook leads and
 * the recursive flattening of a lead into one flat dict.
 */
module RdMarketing {
  import opened Json
  import opened Http
  import opened Seqs
  import opened Dates

  // ---------------------------------------------------------------------------------------------
  // The access token

  /** What one `_get_access_token` call gives back, the token cached after it, and whether it posted to `/auth/token`. */
  datatype TokenOutcome = TokenOutcome(result: Result<Json>, cache: Json, requested: bool)

  /**
   * One `_get_access_token` call with `cache` in `_access_token`: a truthy cache is returned as it
   * is; otherwise the token endpoint is asked, a failed request or a body without `access_token`
   * raises, and the token read is cached (even a falsy one, which the next call will not trust).
   */
  function TokenCall(cache: Json, reply: Reply): TokenOutcome {
    if Truthy(cache) then TokenOutcome(Ok(cache), cache, false)
    else if Failed(reply) then TokenOutcome(Err("token request failed"), cache, true)
    else match Get(reply.body, "access_token")
      case None => TokenOutcome(Err("no access_token in the reply"), cache, true)
      case Some(t) => TokenOutcome(Ok(t), t, true)
  }

  /** A run of calls, `replies[i]` answering the token request of call `i` if it makes one; the results and the number of requests. */
  function TokenCalls(cache: Json, replies: seq<Reply>): (r: (seq<Result<Json>>, nat))
    ensures |r.0| == |replies| && r.1 <= |replies|
    decreases |replies|
  {
    if replies == [] then ([], 0)
    else
      var t := TokenCall(cache, replies[0]);
      var rest := TokenCalls(t.cache, replies[1..]);
      ([t.result] + rest.0, rest.1 + (if t.requested then 1 else 0))
  }

  /** Once a call has cached a truthy token, every later call returns that token and makes no request. */
  lemma {:induction false} TokenMemoised(cache: Json, replies: seq<Reply>)
    requires Truthy(cache)
    ensures var r := TokenCalls(cache, replies);
      r.1 == 0 && forall i :: 0 <= i < |replies| ==> r.0[i] == Ok(cache)
    decreases |replies|
  {
    if replies != [] {
      TokenMemoised(cache, replies[1..]);
    }
  }

  /** Over any run of calls, the first call that gets a truthy token is the last one to make a request. */
  lemma {:induction false} TokenFirstSuccess(cache: Json, replies: seq<Reply>, i: nat)
    requires i < |replies|
    requires var t := TokenCalls(cache, replies).0[i]; t.Ok? && Truthy(t.value)
    ensures TokenCalls(cache, replies).1 == TokenCalls(cache, replies[..i + 1]).1
    decreases |replies|
  {
    var t := TokenCall(cache, replies[0]);
    var rest := TokenCalls(t.cache, replies[1..]);
    var pre := replies[..i + 1];
    assert pre[0] == replies[0];
    if i == 0 {
      assert t.result.Ok? && t.cache == t.result.value;
      TokenMemoised(t.cache, replies[1..]);
      assert pre[1..] == [];
    } else {
      assert rest.0[i - 1] == TokenCalls(cache, replies).0[i];
      TokenFirstSuccess(t.cache, replies[1..], i - 1);
      assert pre[1..] == replies[1..][..i];
    }
  }

  /** Every call after the first that gets a truthy token returns that same token. */
  lemma {:induction false} TokenKept(cache: Json, replies: seq<Reply>, i: nat)
    requires i < |replies|
    requires var t := TokenCalls(cache, replies).0[i]; t.Ok? && Truthy(t.value)
    ensures var r := TokenCalls(cache, replies); forall j :: i <= j < |replies| ==> r.0[j] == r.0[i]
    decreases |replies|
  {
    var r := TokenCalls(cache, replies);
    var t := TokenCall(cache, replies[0]);
    var rest := TokenCalls(t.cache, replies[1..]);
    assert r.0 == [t.result] + rest.0;
    if i == 0 {
      assert t.result.Ok? && t.cache == t.result.value;
      TokenMemoised(t.cache, replies[1..]);
    } else {
      assert rest.0[i - 1] == r.0[i];
      TokenKept(t.cache, replies[1..], i - 1);
    }
    forall j | i <= j < |replies| ensures r.0[j] == r.0[i] {
      if j > 0 {
        assert r.0[j] == rest.0[j - 1];
      }
    }
  }

  /** The day loop of `_extract_analytics(key, key, start, dateStop)` over what the request helper returned. */
  function Analytics(key: string, start: DateTime, dateStop: DateTime, data: nat -> Option<Json>): Fetched<string> {
    AnalyticsFrom(DayPages(key, start, data), DayDates(start), 0, DayCount(start, dateStop))
  }

  /** The three tables of `extract`: the email and conversion analytics items and the flat webhook leads. */
  datatype Tables = Tables(emails: seq<Json>, conversions: seq<Json>, webhookLeads: seq<seq<Field>>)

  /** The connector's state: the cached token and the webhook proxy credentials. */
  class Connector {
    var accessToken: Json
    const xApiKey: Json
    const alias: Json

    constructor(xApiKey: Json, alias: Json)
      ensures accessToken == JNull && this.xApiKey == xApiKey && this.alias == alias
    {
      accessToken := JNull;
      this.xApiKey := xApiKey;
      this.alias := alias;
    }

    /** `_get_access_token`; `reply` answers the token request if one is made. */
    method GetAccessToken(reply: Reply) returns (r: Result<Json>, requested: bool)
      modifies this
      ensures var t := TokenCall(old(accessToken), reply);
        r == t.result && requested == t.requested && accessToken == t.cache
    {
      if Truthy(accessToken) {
        return Ok(accessToken), false;
      }
      if reply.Raised? || RaisesForStatus(reply.status) {
        return Err("token request failed"), true;
      }
      var t := Get(reply.body, "access_token");
      if t.None? {
        return Err("no access_token in the reply"), true;
      }
      accessToken := t.value;
      return Ok(t.value), true;
    }

    /**
     * `_extract_analytics(endpoint, key, start, dateStop)`: the token first (its failure escapes
     * before any request), then one request per day; `data(k)` is what the request helper
     * returned for day `k`.
     */
    method ExtractAnalytics(reply: Reply, key: string, start: DateTime, dateStop: DateTime, data: nat -> Option<Json>)
      returns (items: seq<Json>, dates: seq<string>, ended: Stop)
      modifies this
      ensures accessToken == TokenCall(old(accessToken), reply).cache
      ensures TokenCall(old(accessToken), reply).result.Err? ==> items == [] && dates == [] && ended == Crashed
      ensures TokenCall(old(accessToken), reply).result.Ok? ==>
        var f := Analytics(key, start, dateStop, data);
        items == f.items && dates == f.requests && ended == f.stop
    {
      var token, _ := GetAccessToken(reply);
      if token.Err? {
        return [], [], Crashed;
      }
      items, dates, ended := AnalyticsLoop(key, start, dateStop, data);
    }

    /**
     * `_extract_webhook_leads`: nothing without both proxy credentials; otherwise the offset
     * loop, then `_flatten_dict` on every lead. `results[i]` is what the request helper returned
     * for the `i`-th page; a lead that is not an object makes the flattening raise.
     */
    method ExtractWebhookLeads(results: seq<Option<Json>>) returns (rows: seq<seq<Field>>, offsets: seq<int>, ended: Stop)
      ensures !Truthy(xApiKey) || !Truthy(alias) ==> rows == [] && offsets == [] && ended == Finished
      ensures Truthy(xApiKey) && Truthy(alias) ==>
        var f := LeadsRun(results, 0);
        offsets == f.requests
        && (AllObjects(f.items) ==> rows == Map(f.items, FlatLead) && ended == f.stop)
        && (!AllObjects(f.items) ==> ended == Crashed)
    {
      if !Truthy(xApiKey) || !Truthy(alias) {
        return [], [], Finished;
      }
      var leads, stop;
      leads, offsets, stop := FetchLeads(results);
      var ok;
      rows, ok := FlattenLeads(leads);
      ended := if ok then stop else Crashed;
    }

    /** Both webhook proxy credentials are not set, so the leads table stays empty. */
    predicate WebhookOff() {
      !Truthy(xApiKey) || !Truthy(alias)
    }

    /**
     * `extract(date_start, date_stop)`: the emails analytics, the conversions analytics, then the
     * webhook leads. `tokenReplies` answer the token requests of the two analytics calls (the
     * second call asks only when the first left a falsy token in the cache); `emailData`,
     * `conversionData` and `leadResults` are what the request helper returned for each request.
     * Err when a step raises, which ends the whole extraction.
     */
    method Extract(tokenReplies: (Reply, Reply), start: DateTime, dateStop: DateTime,
      emailData: nat -> Option<Json>, conversionData: nat -> Option<Json>, leadResults: seq<Option<Json>>)
      returns (r: Result<Tables>)
      modifies this
      ensures var t1 := TokenCall(old(accessToken), tokenReplies.0);
        var t2 := TokenCall(t1.cache, tokenReplies.1);
        var e := Analytics("emails", start, dateStop, emailData);
        var c := Analytics("conversions", start, dateStop, conversionData);
        var leads := LeadsRun(leadResults, 0).items;
        && (r.Ok? <==> (t1.result.Ok? && !e.stop.Crashed? && t2.result.Ok? && !c.stop.Crashed?
              && (WebhookOff() || (!LeadsRun(leadResults, 0).stop.Crashed? && AllObjects(leads)))))
        && (r.Ok? ==> r.value == Tables(e.items, c.items, if WebhookOff() then [] else Map(leads, FlatLead)))
        && accessToken == (if t1.result.Err? || e.stop.Crashed? then t1.cache else t2.cache)
    {
      var emails, _, emailsEnded := ExtractAnalytics(tokenReplies.0, "emails", start, dateStop, emailData);
      if emailsEnded.Crashed? {
        return Err("the emails extraction raised");
      }
      var conversions, _, conversionsEnded := ExtractAnalytics(tokenReplies.1, "conversions", start, dateStop, conversionData);
      if conversionsEnded.Crashed? {
        return Err("the conversions extraction raised");
      }
      LeadsPaging(leadResults);
      var rows, _, leadsEnded := ExtractWebhookLeads(leadResults);
      if leadsEnded.Crashed? {
        return Err("the webhook leads extraction raised");
      }
      return Ok(Tables(emails, conversions, rows));
    }
  }

  // ---------------------------------------------------------------------------------------------
  // The request helper

  /**
   * The sleep after a 429: `int(headers.get("Retry-After", 30))` seconds. When the header is not
   * an integer (`int` raises) or is negative (`time.sleep` raises), the exception handler sleeps
   * 5 seconds instead.
   */
  function RetryDelay(headers: map<string, string>): int {
    var v := if "Retry-After" in headers then ParseInt(headers["Retry-After"]) else Some(30);
    if v.Some? && v.value >= 0 then v.value else 5
  }

  /**
   * The attempt loop of `_safe_request` from attempt `k` on: a 200 returns its body, a 429 sleeps
   * for `Retry-After` and tries again, a raised call sleeps 5 seconds and tries again, and any
   * other status gives up at once; three attempts at most.
   */
  function AttemptsFrom(reply: nat -> Reply, k: nat): Attempted
    decreases 3 - k
  {
    if k >= 3 then Attempted(None, k, [])
    else
      var r := reply(k);
      if r.Raised? || r.status == 429 then
        var rest := AttemptsFrom(reply, k + 1);
        Attempted(rest.body, rest.tries, [if r.Raised? then 5 else RetryDelay(r.headers)] + rest.delays)
      else if r.status == 200 then Attempted(Some(r.body), k + 1, [])
      else Attempted(None, k + 1, [])
  }

  /** `_safe_request`; `reply(k)` stands for the reply to attempt `k`. */
  method SafeRequest(reply: nat -> Reply) returns (r: Attempted)
    ensures r == AttemptsFrom(reply, 0)
  {
    var delays: seq<int> := [];
    var attempt := 0;
    while attempt < 3
      invariant 0 <= attempt <= 3
      invariant AttemptsFrom(reply, 0) == After(delays, AttemptsFrom(reply, attempt))
    {
      var res := reply(attempt);
      ghost var rest := AttemptsFrom(reply, attempt + 1);
      if res.Reply? && res.status == 200 {
        AfterDone(delays, Some(res.body), attempt + 1);
        return Attempted(Some(res.body), attempt + 1, delays);
      } else if res.Reply? && res.status == 429 {
        var wait := 30;
        if "Retry-After" in res.headers {
          var v := ParseInt(res.headers["Retry-After"]);
          wait := if v.Some? then v.value else -1;
        }
        if wait < 0 {
          wait := 5;
        }
        assert wait == RetryDelay(res.headers);
        assert AttemptsFrom(reply, attempt) == Attempted(rest.body, rest.tries, [wait] + rest.delays);
        AfterSleep(delays, wait, rest);
        delays := delays + [wait];
      } else if res.Reply? {
        AfterDone(delays, None, attempt + 1);
        return Attempted(None, attempt + 1, delays);
      } else {
        assert AttemptsFrom(reply, attempt) == Attempted(rest.body, rest.tries, [5] + rest.delays);
        AfterSleep(delays, 5, rest);
        delays := delays + [5];
      }
      attempt := attempt + 1;
    }
    AfterDone(delays, None, 3);
    return Attempted(None, 3, delays);
  }

  /** A reply after which the helper tries again. */
  predicate Retryable(r: Reply) {
    r.Raised? || r.status == 429
  }

  /**
   * At most three requests; all but the last were a raised call or a 429; a body only from a 200;
   * without a body, all three attempts were used or the last got a status other than 200 and
   * 429. One sleep follows each retried attempt: `Retry-After` seconds (30 without the header)
   * after a 429, 5 seconds after a raised call.
   */
  lemma {:induction false} AttemptsShape(reply: nat -> Reply, k: nat)
    requires k <= 3
    ensures var a := AttemptsFrom(reply, k);
      && k <= a.tries <= 3
      && (k < 3 ==> k < a.tries)
      && (forall j :: k <= j < a.tries - 1 ==> Retryable(reply(j)))
      && (a.body.Some? ==> reply(a.tries - 1).Reply? && reply(a.tries - 1).status == 200 && reply(a.tries - 1).body == a.body.value)
      && (a.body.None? && a.tries < 3 ==> !Retryable(reply(a.tries - 1)) && reply(a.tries - 1).status != 200)
      && k + |a.delays| <= a.tries
      && (forall j :: 0 <= j < |a.delays| ==>
            a.delays[j] == if reply(k + j).Raised? then 5 else RetryDelay(reply(k + j).headers))
    decreases 3 - k
  {
    if k < 3 && Retryable(reply(k)) {
      AttemptsShape(reply, k + 1);
    }
  }

  /** The `Retry-After` wait: the header's value when it is a non-negative integer, 30 seconds without it. */
  lemma RetryAfterHonoured(headers: map<string, string>, n: nat)
    ensures RetryDelay(headers - {"Retry-After"}) == 30
    ensures RetryDelay(headers["Retry-After" := IntToString(n)]) == n
  {
    ParseIntToString(n);
  }

  // ---------------------------------------------------------------------------------------------
  // Analytics

  /**
   * How many times `while current_date <= date_stop` runs from `start`, stepping one day at a
   * time: the time of day takes part in the comparison.
   */
  function DayCount(start: DateTime, dateStop: DateTime): (n: nat)
    ensures n > 0 <==> LessEq(start, dateStop)
  {
    if !LessEq(start, dateStop) then 0
    else dateStop.day - start.day + (if start.micros <= dateStop.micros then 1 else 0)
  }

  /** Day `k` is visited exactly when `k` is below the day count. */
  lemma DayCountStep(start: DateTime, dateStop: DateTime, k: nat)
    ensures LessEq(AddDays(start, k), dateStop) <==> k < DayCount(start, dateStop)
    ensures LessEq(AddDays(start, k + 1), dateStop) <==> k + 1 < DayCount(start, dateStop)
  {
  }

  /** One more day of the loop, in a run under way: its page is added, or the run ends there. */
  lemma AnalyticsStep(pages: nat -> Option<seq<Json>>, dateOf: nat -> string, k: nat, n: nat,
    items: seq<Json>, dates: seq<string>)
    requires k < n
    ensures pages(k).Some? ==>
      Resume(items, dates, AnalyticsFrom(pages, dateOf, k, n)) == Resume(items + pages(k).value, dates + [dateOf(k)], AnalyticsFrom(pages, dateOf, k + 1, n))
    ensures pages(k).None? ==>
      Resume(items, dates, AnalyticsFrom(pages, dateOf, k, n)) == Fetched(items, dates + [dateOf(k)], Crashed)
  {
    if pages(k).Some? {
      ResumeThen(items, dates, pages(k).value, dateOf(k), AnalyticsFrom(pages, dateOf, k + 1, n));
    } else {
      assert items + [] == items;
    }
  }

  /** The day loop of `_extract_analytics`, once the token is in hand. */
  method AnalyticsLoop(key: string, start: DateTime, dateStop: DateTime, data: nat -> Option<Json>)
    returns (items: seq<Json>, dates: seq<string>, ended: Stop)
    ensures Fetched(items, dates, ended) == AnalyticsFrom(DayPages(key, start, data), DayDates(start), 0, DayCount(start, dateStop))
  {
    var pages, dateOf := DayPages(key, start, data), DayDates(start);
    items, dates := [], [];
    var n := DayCount(start, dateStop);
    var current := start;
    var k := 0;
    ResumeEmpty(AnalyticsFrom(pages, dateOf, 0, n));
    while LessEq(current, dateStop)
      invariant 0 <= k <= n && current == AddDays(start, k)
      invariant LessEq(current, dateStop) <==> k < n
      invariant AnalyticsFrom(pages, dateOf, 0, n) == Resume(items, dates, AnalyticsFrom(pages, dateOf, k, n))
      decreases n - k
    {
      var date := IsoDate(current);
      var page := DayPage(data(k), key, date);
      assert date == dateOf(k) && page == pages(k);
      AnalyticsStep(pages, dateOf, k, n, items, dates);
      if page.None? {
        return items, dates + [date], Crashed;
      }
      items, dates := items + page.value, dates + [date];
      DayCountStep(start, dateStop, k);
      current := AddDays(current, 1);
      k := k + 1;
    }
    assert items + [] == items && dates + [] == dates;
    ended := Finished;
  }

  /**
   * What one day's response contributes, step by step as `if data and json_key in data: for
   * item in data[json_key]` reads it: `in` raises on a number or boolean, the subscript on a
   * list or string that holds the key, the `for` on a value it cannot iterate, and the tagging
   * on an item that is not an object.
   */
  method DayPage(d: Option<Json>, key: string, date: string) returns (page: Option<seq<Json>>)
    ensures page == DayItems(d, key, date)
  {
    if d.None? || !Truthy(d.value) {
      return Some([]);
    }
    var found := Member(key, d.value);
    if found.None? {
      return None;
    }
    if !found.value {
      return Some([]);
    }
    if !d.value.JObj? {
      return None;
    }
    var items := Extended(At(d.value, key));
    if items.None? {
      return None;
    }
    page := TagItems(items.value, date);
  }

  /** `item["extraction_date"] = date` on an object. */
  function Tag(item: Json, date: string): Json
    requires item.JObj?
  {
    JObj(SetField(item.fields, "extraction_date", JStr(date)))
  }

  predicate AllObjects(items: seq<Json>) {
    forall i :: 0 <= i < |items| ==> items[i].JObj?
  }

  /** The item carries `date` as its `extraction_date`. */
  predicate Dated(item: Json, date: string) {
    item.JObj? && Lookup(item.fields, "extraction_date") == Some(JStr(date))
  }

  /** `tagged` is the object `item` with `extraction_date` set to `date` and every other key as it was. */
  ghost predicate Retagged(item: Json, tagged: Json, date: string) {
    && item.JObj? && Dated(tagged, date)
    && forall j :: j != "extraction_date" ==> Lookup(tagged.fields, j) == Lookup(item.fields, j)
  }

  /**
   * The items of one day tagged with its date, in order; None when one of them is not an object,
   * where the item assignment raises.
   */
  function TagAll(items: seq<Json>, date: string): (r: Option<seq<Json>>)
    ensures r.Some? <==> AllObjects(items)
    ensures r.Some? ==> |r.value| == |items| && forall i :: 0 <= i < |items| ==> Retagged(items[i], r.value[i], date)
  {
    if AllObjects(items) then Some(seq(|items|, i requires 0 <= i < |items| => Tag(items[i], date))) else None
  }

  /** The tagging loop of one day. */
  method TagItems(items: seq<Json>, date: string) returns (r: Option<seq<Json>>)
    ensures r == TagAll(items, date)
  {
    var tagged: seq<Json> := [];
    var i := 0;
    while i < |items|
      invariant 0 <= i <= |items|
      invariant |tagged| == i && forall j :: 0 <= j < i ==> items[j].JObj? && tagged[j] == Tag(items[j], date)
    {
      if !items[i].JObj? {
        return None;
      }
      tagged := tagged + [Tag(items[i], date)];
      i := i + 1;
    }
    assert tagged == seq(|items|, i requires 0 <= i < |items| => Tag(items[i], date));
    return Some(tagged);
  }

  /**
   * What day `date` contributes: nothing when the helper returned nothing, a falsy body or one
   * without `key`; otherwise the tagged items the `for` visits under `key`. None when the day
   * raises: `in` on a number or boolean, the subscript on a list or string body, the `for` on a
   * null, number or boolean, or the tagging of an item that is not an object (which includes
   * the keys of a dict and the characters of a string).
   */
  function DayItems(d: Option<Json>, key: string, date: string): (r: Option<seq<Json>>)
    ensures r.Some? <==> (d.None? || !Truthy(d.value) || Member(key, d.value) == Some(false)
      || (d.value.JObj? && Has(d.value, key) && At(d.value, key).JList? && AllObjects(At(d.value, key).items))
      || (d.value.JObj? && Has(d.value, key) && Extended(At(d.value, key)) == Some([])))
    ensures r.Some? && r.value != [] ==>
      && d.Some? && d.value.JObj? && Has(d.value, key) && At(d.value, key).JList?
      && |r.value| == |At(d.value, key).items|
      && forall i :: 0 <= i < |r.value| ==> Retagged(At(d.value, key).items[i], r.value[i], date)
  {
    if d.None? || !Truthy(d.value) then Some([])
    else match Member(key, d.value)
      case None => None
      case Some(found) =>
        if !found then Some([])
        else if !d.value.JObj? then None
        else match Extended(At(d.value, key))
          case None => None
          case Some(items) => ExtendedObjects(At(d.value, key)); TagAll(items, date)
  }

  /** Only a list can give the `for` objects to tag: a dict gives its keys, a string its characters. */
  lemma ExtendedObjects(v: Json)
    requires Extended(v).Some?
    ensures AllObjects(Extended(v).value) <==> (v.JList? && AllObjects(v.items)) || Extended(v).value == []
  {
    var xs := Extended(v).value;
    if !v.JList? && xs != [] {
      assert xs[0].JStr?;
    }
  }

  /**
   * Days on which the source raises: a number body (`in`), a list body holding the key (the
   * subscript), a null value under the key (the `for`), and a string value (the tagging of
   * its characters).
   */
  lemma DayRaises(key: string, date: string)
    ensures DayItems(Some(JInt(5)), key, date).None?
    ensures DayItems(Some(JList([JStr(key)])), key, date).None?
    ensures DayItems(Some(JObj([Field(key, JNull)])), key, date).None?
    ensures DayItems(Some(JObj([Field(key, JStr("xy"))])), key, date).None?
  {
    var n := JObj([Field(key, JNull)]);
    var s := JObj([Field(key, JStr("xy"))]);
    assert Lookup(n.fields, key) == Some(JNull) && Lookup(s.fields, key) == Some(JStr("xy"));
    assert !AllObjects(Extended(JStr("xy")).value) by {
      assert Extended(JStr("xy")).value[0] == JStr("x");
    }
  }

  /** The date string of day `k` after `start`: `(start + timedelta(days=k)).strftime("%Y-%m-%d")`. */
  function DayDates(start: DateTime): nat -> string {
    (k: nat) => IsoDate(AddDays(start, k))
  }

  /** What each day contributes: `pages(k)` is day `k`'s tagged items, None when tagging raises. */
  function DayPages(key: string, start: DateTime, data: nat -> Option<Json>): nat -> Option<seq<Json>> {
    (k: nat) => DayItems(data(k), key, IsoDate(AddDays(start, k)))
  }

  /**
   * The day loop of `_extract_analytics` from day `k` to day `n - 1`, where `pages(k)` is what day
   * `k` contributes and `dateOf(k)` names its request.
   */
  function AnalyticsFrom(pages: nat -> Option<seq<Json>>, dateOf: nat -> string, k: nat, n: nat): Fetched<string>
    decreases n - k
  {
    if k >= n then Fetched([], [], Finished)
    else
      match pages(k)
      case None => Fetched([], [dateOf(k)], Crashed)
      case Some(page) => Then(page, dateOf(k), AnalyticsFrom(pages, dateOf, k + 1, n))
  }

  /**
   * One request per day in order, each for that day's date; a run that does not raise visits
   * every day, so none is made when the start is after the stop; the run raises exactly when
   * one of its days does.
   */
  lemma {:induction false} AnalyticsDays(pages: nat -> Option<seq<Json>>, dateOf: nat -> string, k: nat, n: nat)
    requires k <= n
    ensures var f := AnalyticsFrom(pages, dateOf, k, n);
      && |f.requests| <= n - k
      && (forall j :: 0 <= j < |f.requests| ==> f.requests[j] == dateOf(k + j))
      && (f.stop.Finished? || f.stop.Crashed?)
      && (f.stop.Finished? ==> |f.requests| == n - k)
      && (f.stop.Crashed? ==> pages(k + |f.requests| - 1).None?)
      && (f.stop.Finished? <==> forall j :: k <= j < n ==> pages(j).Some?)
    decreases n - k
  {
    if k < n && pages(k).Some? {
      var f := AnalyticsFrom(pages, dateOf, k, n);
      AnalyticsDays(pages, dateOf, k + 1, n);
      var g := AnalyticsFrom(pages, dateOf, k + 1, n);
      assert f == Then(pages(k).value, dateOf(k), g);
      forall j | 1 <= j < |f.requests| ensures f.requests[j] == dateOf(k + j) {
        assert f.requests[j] == g.requests[j - 1];
      }
    }
  }

  /** Each day's items carry that day's date. */
  ghost predicate PagesDated(pages: nat -> Option<seq<Json>>, dateOf: nat -> string) {
    forall k: nat :: pages(k).Some? ==> forall i :: 0 <= i < |pages(k).value| ==> Dated(pages(k).value[i], dateOf(k))
  }

  /** Every day's items are tagged with that day's date. */
  lemma DayPagesDated(key: string, start: DateTime, data: nat -> Option<Json>)
    ensures PagesDated(DayPages(key, start, data), DayDates(start))
  {
    forall k: nat | DayPages(key, start, data)(k).Some?
      ensures var page := DayPages(key, start, data)(k).value;
        forall i :: 0 <= i < |page| ==> Dated(page[i], DayDates(start)(k))
    {
      var date := IsoDate(AddDays(start, k));
      var page := DayItems(data(k), key, date).value;
      forall i | 0 <= i < |page| ensures Dated(page[i], date) {
        assert Retagged(At(data(k).value, key).items[i], page[i], date);
      }
    }
  }

  /** The item carries the date of one of the requests. */
  predicate DatedBy(item: Json, dates: seq<string>) {
    exists j :: 0 <= j < |dates| && Dated(item, dates[j])
  }

  /** Every item of the run carries the date of one of its requests. */
  predicate AllDated(f: Fetched<string>) {
    forall i :: 0 <= i < |f.items| ==> DatedBy(f.items[i], f.requests)
  }

  lemma DatedByCons(item: Json, date: string, dates: seq<string>)
    requires DatedBy(item, dates)
    ensures DatedBy(item, [date] + dates)
  {
    var j :| 0 <= j < |dates| && Dated(item, dates[j]);
    assert ([date] + dates)[j + 1] == dates[j];
  }

  /** Every collected item is an object carrying, as `extraction_date`, the date of one of the requests. */
  lemma {:induction false} AnalyticsDated(pages: nat -> Option<seq<Json>>, dateOf: nat -> string, k: nat, n: nat)
    requires PagesDated(pages, dateOf)
    ensures AllDated(AnalyticsFrom(pages, dateOf, k, n))
    decreases n - k
  {
    if k < n && pages(k).Some? {
      var f := AnalyticsFrom(pages, dateOf, k, n);
      var g := AnalyticsFrom(pages, dateOf, k + 1, n);
      AnalyticsDated(pages, dateOf, k + 1, n);
      assert AllDated(g);
      var p := pages(k).value;
      var date := dateOf(k);
      assert f == Then(p, date, g);
      forall i | 0 <= i < |f.items| ensures DatedBy(f.items[i], f.requests) {
        if i < |p| {
          assert f.items[i] == p[i] && f.requests[0] == date;
          assert Dated(f.items[i], f.requests[0]);
        } else {
          assert f.items[i] == g.items[i - |p|];
          DatedByCons(g.items[i - |p|], date, g.requests);
        }
      }
    }
  }

  /** An extraction whose start is after its stop makes no request and collects nothing. */
  lemma AnalyticsNoDays(key: string, start: DateTime, dateStop: DateTime, data: nat -> Option<Json>)
    requires !LessEq(start, dateStop)
    ensures AnalyticsFrom(DayPages(key, start, data), DayDates(start), 0, DayCount(start, dateStop)) == Fetched([], [], Finished)
  {
  }

  // ---------------------------------------------------------------------------------------------
  // Webhook leads

  /** The page size of the webhook proxy: `limit`, and the step of `offset`. */
  const Limit := 500

  /**
   * What one webhook page makes of the offset loop. A falsy body, a body without "data" and a
   * falsy `data` stop it. The loop raises where the source would: `in` on a number or boolean
   * body, the subscript `data["data"]` on a list or string body that holds "data", and `extend`
   * on a `data` that is a number or boolean. Otherwise the page keeps what `extend` appends.
   */
  function LeadPage(d: Option<Json>): (p: ShortPage)
    ensures p.Records? <==> (d.Some? && d.value.JObj? && Truthy(d.value) && Has(d.value, "data")
      && Truthy(At(d.value, "data")) && Extended(At(d.value, "data")).Some?)
    ensures p.Records? ==> Extended(At(d.value, "data")) == Some(p.records)
    ensures p.Raises? <==> (d.Some? && Truthy(d.value) && (Member("data", d.value).None?
      || (Member("data", d.value) == Some(true) && !d.value.JObj?)
      || (d.value.JObj? && Has(d.value, "data") && Truthy(At(d.value, "data")) && Extended(At(d.value, "data")).None?)))
  {
    if d.None? || !Truthy(d.value) then Halt
    else match Member("data", d.value)
      case None => Raises
      case Some(found) =>
        if !found then Halt
        else if !d.value.JObj? then Raises
        else if !Truthy(At(d.value, "data")) then Halt
        else match Extended(At(d.value, "data"))
          case None => Raises
          case Some(p) => Records(p)
  }

  /**
   * The offset loop of `_extract_webhook_leads` from `offset` on: a page that stops it is not
   * kept, one that raises ends it `Crashed`, a page of fewer than 500 leads ends it after keeping
   * them, a full page moves on by 500.
   */
  function LeadsRun(results: seq<Option<Json>>, offset: int): Fetched<int> {
    ShortRun(Map(results, LeadPage), offset, Limit, Limit)
  }

  /** The offset loop itself. */
  method FetchLeads(results: seq<Option<Json>>) returns (leads: seq<Json>, offsets: seq<int>, ended: Stop)
    ensures Fetched(leads, offsets, ended) == LeadsRun(results, 0)
  {
    ghost var pages := Map(results, LeadPage);
    leads, offsets := [], [];
    var offset := 0;
    var i := 0;
    ResumeEmpty(LeadsRun(results, offset));
    while i < |results|
      invariant 0 <= i <= |results|
      invariant LeadsRun(results, 0) == Resume(leads, offsets, ShortRun(pages[i..], offset, Limit, Limit))
    {
      var data := results[i];
      assert pages[i..][0] == LeadPage(data) && pages[i..][1..] == pages[i + 1..];
      assert leads + [] == leads;
      if data.None? || !Truthy(data.value) {
        return leads, offsets + [offset], Finished;
      }
      var found := Member("data", data.value);
      if found.None? {
        return leads, offsets + [offset], Crashed;
      }
      if !found.value {
        return leads, offsets + [offset], Finished;
      }
      if !data.value.JObj? {
        return leads, offsets + [offset], Crashed;
      }
      if !Truthy(At(data.value, "data")) {
        return leads, offsets + [offset], Finished;
      }
      var added := Extended(At(data.value, "data"));
      if added.None? {
        return leads, offsets + [offset], Crashed;
      }
      var page := added.value;
      if |page| < Limit {
        return leads + page, offsets + [offset], Finished;
      }
      ResumeThen(leads, offsets, page, offset, ShortRun(pages[i + 1..], offset + Limit, Limit, Limit));
      leads, offsets := leads + page, offsets + [offset];
      offset := offset + Limit;
      i := i + 1;
    }
    assert pages[i..] == [];
    assert leads + [] == leads && offsets + [] == offsets;
    return leads, offsets, OutOfReplies;
  }

  /**
   * The webhook offsets are 0, 500, 1000, …, at most one request per page result; every page
   * but the last was kept and full; the loop crashed exactly when the last page raised, and
   * otherwise finished on a page that stopped it or was short, unless the supply ran out; the
   * leads are the pages joined in order.
   */
  lemma LeadsPaging(results: seq<Option<Json>>)
    ensures var f := LeadsRun(results, 0); var n := |f.requests|;
      && n <= |results|
      && (forall k :: 0 <= k < n ==> f.requests[k] == Limit * k)
      && (forall k :: 0 <= k < n - 1 ==> LeadPage(results[k]).Records? && |LeadPage(results[k]).records| >= Limit)
      && (f.stop.Finished? ==> n > 0 && (LeadPage(results[n - 1]).Halt? || (LeadPage(results[n - 1]).Records? && |LeadPage(results[n - 1]).records| < Limit)))
      && (f.stop.Crashed? <==> n > 0 && LeadPage(results[n - 1]).Raises?)
      && !f.stop.RequestFailed?
      && (f.stop.OutOfReplies? ==> n == |results|)
      && f.items == PagesOf(Map(results, LeadPage), n, PageKept)
  {
    ShortPaging(Map(results, LeadPage), 0, Limit, Limit);
    ShortItems(Map(results, LeadPage), 0, Limit, Limit);
  }

  /** A webhook page whose `data` is a number makes `extend` raise, which ends the extraction. */
  lemma NumberLeadsRaise(rest: seq<Option<Json>>)
    ensures LeadsRun([Some(JObj([Field("data", JInt(7))]))] + rest, 0) == Fetched([], [0], Crashed)
  {
    var d := Some(JObj([Field("data", JInt(7))]));
    assert At(d.value, "data") == JInt(7);
    assert Map([d] + rest, LeadPage)[0] == Raises;
  }

  /** `_flatten_dict(lead)`; only called on objects. */
  function FlatLead(lead: Json): seq<Field> {
    if lead.JObj? then FlatDict(lead.fields, "") else []
  }

  /** `[self._flatten_dict(l) for l in all_leads]`; `ok` is false when a lead is not an object. */
  method FlattenLeads(leads: seq<Json>) returns (rows: seq<seq<Field>>, ok: bool)
    ensures ok == AllObjects(leads)
    ensures ok ==> rows == Map(leads, FlatLead)
  {
    rows := [];
    var i := 0;
    while i < |leads|
      invariant 0 <= i <= |leads|
      invariant AllObjects(leads[..i]) && rows == Map(leads[..i], FlatLead)
    {
      if !leads[i].JObj? {
        return rows, false;
      }
      assert leads[..i + 1] == leads[..i] + [leads[i]];
      MapSnoc(leads[..i], leads[i], FlatLead);
      rows := rows + [FlatDict(leads[i].fields, "")];
      i := i + 1;
    }
    assert leads[..i] == leads;
    return rows, true;
  }

  // ---------------------------------------------------------------------------------------------
  // Flattening

  /** `f"{parent_key}{sep}{k}" if parent_key else k` with `sep = "_"`. */
  function JoinKey(parent: string, k: string): string {
    if parent != "" then parent + "_" + k else k
  }

  /** `x` begins with `p`. */
  predicate Prefixed(p: string, x: string) {
    |p| <= |x| && x[..|p|] == p
  }

  /**
   * `_flatten_dict(d, parent).items()` for the object with members `fs`: the loop's pairs turned
   * into a dict, so a repeated flat key keeps its first position and its last value. No value of
   * the result is a dict, and below a non-empty parent every key extends `parent + "_"`.
   */
  function FlatDict(fs: seq<Field>, parent: string): (r: seq<Field>)
    ensures forall i :: 0 <= i < |r| ==> !r[i].val.JObj?
    ensures parent != "" ==> forall i :: 0 <= i < |r| ==> Prefixed(parent + "_", r[i].key)
    decreases JObj(fs), 1
  {
    var pairs := FlatMembers(fs, parent, |Items(fs)|);
    ItemsKeep(pairs, (f: Field) => !f.val.JObj? && (parent != "" ==> Prefixed(parent + "_", f.key)));
    Items(pairs)
  }

  /**
   * The pairs the loop over `d.items()` has appended after its first `n` members. The value of a
   * member is read from the object itself (the last member with its key).
   */
  function FlatMembers(fs: seq<Field>, parent: string, n: nat): (r: seq<Field>)
    requires n <= |Items(fs)|
    ensures forall i :: 0 <= i < |r| ==> !r[i].val.JObj?
    ensures parent != "" ==> forall i :: 0 <= i < |r| ==> Prefixed(parent + "_", r[i].key)
    decreases JObj(fs), 0, n
  {
    if n == 0 then []
    else
      var k := Items(fs)[n - 1].key;
      ItemsMember(fs, n - 1);
      var j := LastIndex(fs, k);
      var v := fs[j].val;
      var more := FlatValue(v, JoinKey(parent, k));
      assert parent != "" ==> forall i :: 0 <= i < |more| ==> Prefixed(parent + "_", more[i].key) by {
        if parent != "" {
          assert Prefixed(parent + "_", JoinKey(parent, k));
          PrefixedTrans(parent + "_", JoinKey(parent, k), more);
        }
      }
      FlatMembers(fs, parent, n - 1) + more
  }

  /**
   * The pairs one member value gives under the flat key `key`: a dict is flattened below it, a
   * non-empty list gives `key_1`, `key_2`, … (each dict element flattened below its own key), an
   * empty list gives `(key, None)` and anything else `(key, value)`.
   */
  function FlatValue(v: Json, key: string): (r: seq<Field>)
    ensures forall i :: 0 <= i < |r| ==> !r[i].val.JObj?
    ensures forall i :: 0 <= i < |r| ==> Prefixed(key, r[i].key)
    decreases v, 3
  {
    match v
    case JObj(gs) =>
      var r := FlatDict(gs, key);
      assert key != "" ==> forall i :: 0 <= i < |r| ==> Prefixed(key, r[i].key) by {
        if key != "" {
          forall i | 0 <= i < |r| ensures Prefixed(key, r[i].key) {
            PrefixedShorter(key, key + "_", r[i].key);
          }
        }
      }
      r
    case JList(xs) => if xs == [] then [Field(key, JNull)] else FlatList(xs, key, |xs|)
    case _ => [Field(key, v)]
  }

  /** The flat key of the list element at 0-based position `i`. */
  function ElementKey(key: string, i: nat): string {
    key + "_" + IntToString(i + 1)
  }

  /** The pairs of the first `n` elements of a list under the flat key `key`. */
  function FlatList(xs: seq<Json>, key: string, n: nat): (r: seq<Field>)
    requires n <= |xs|
    ensures forall i :: 0 <= i < |r| ==> !r[i].val.JObj?
    ensures forall i :: 0 <= i < |r| ==> Prefixed(key + "_", r[i].key)
    decreases JList(xs), 2, n
  {
    if n == 0 then []
    else
      var x := xs[n - 1];
      var ek := ElementKey(key, n - 1);
      assert Prefixed(key + "_", ek);
      var more := if x.JObj? then FlatDict(x.fields, ek) else [Field(ek, x)];
      assert forall i :: 0 <= i < |more| ==> Prefixed(ek, more[i].key) by {
        if x.JObj? {
          forall i | 0 <= i < |more| ensures Prefixed(ek, more[i].key) {
            PrefixedShorter(ek, ek + "_", more[i].key);
          }
        }
      }
      PrefixedTrans(key + "_", ek, more);
      FlatList(xs, key, n - 1) + more
  }

  /** A member renamed to its flat key below `parent`. */
  function Rekey(parent: string, f: Field): Field {
    Field(JoinKey(parent, f.key), f.val)
  }

  /** Every member renamed to its flat key below `parent`, in order. */
  function RekeyAll(parent: string, fs: seq<Field>): (r: seq<Field>)
    ensures |r| == |fs| && forall i :: 0 <= i < |fs| ==> r[i] == Rekey(parent, fs[i])
  {
    seq(|fs|, i requires 0 <= i < |fs| => Rekey(parent, fs[i]))
  }

  /**
   * A dict whose values are neither dicts nor lists flattens to its own items, each key joined
   * below `parent` with `_`: at the top level (`parent == ""`) the same key/value pairs.
   */
  lemma FlatDictFlat(fs: seq<Field>, parent: string)
    requires forall i :: 0 <= i < |fs| ==> IsScalar(fs[i].val)
    ensures FlatDict(fs, parent) == RekeyAll(parent, Items(fs))
    ensures parent == "" ==> FlatDict(fs, parent) == Items(fs)
  {
    var its := Items(fs);
    var r := RekeyAll(parent, its);
    FlatMembersFlat(fs, parent, |its|);
    assert its[..|its|] == its;
    assert FlatDict(fs, parent) == Items(r);
    ItemsDistinct(fs);
    RekeyDistinct(parent, its);
    ItemsOfDistinct(r);
    if parent == "" {
      assert r == its;
    }
  }

  /** Renaming below one parent keeps distinct keys distinct. */
  lemma RekeyDistinct(parent: string, fs: seq<Field>)
    requires forall a, b :: 0 <= a < b < |fs| ==> fs[a].key != fs[b].key
    ensures var r := RekeyAll(parent, fs); forall a, b :: 0 <= a < b < |r| ==> r[a].key != r[b].key
  {
    var r := RekeyAll(parent, fs);
    forall a, b | 0 <= a < b < |r| ensures r[a].key != r[b].key {
      JoinKeyInjective(parent, fs[a].key, fs[b].key);
    }
  }

  lemma JoinKeyInjective(parent: string, a: string, b: string)
    ensures JoinKey(parent, a) == JoinKey(parent, b) ==> a == b
  {
    if parent != "" && JoinKey(parent, a) == JoinKey(parent, b) {
      var n := |parent| + 1;
      assert a == JoinKey(parent, a)[n..];
      assert b == JoinKey(parent, b)[n..];
    }
  }

  lemma {:induction false} FlatMembersFlat(fs: seq<Field>, parent: string, n: nat)
    requires forall i :: 0 <= i < |fs| ==> IsScalar(fs[i].val)
    requires n <= |Items(fs)|
    ensures FlatMembers(fs, parent, n) == RekeyAll(parent, Items(fs)[..n])
  {
    if n > 0 {
      FlatMembersFlat(fs, parent, n - 1);
      var e := Items(fs)[n - 1];
      ItemsMember(fs, n - 1);
      var j := LastIndex(fs, e.key);
      assert Lookup(fs, e.key) == Some(fs[j].val);
      FlatScalar(fs[j].val, JoinKey(parent, e.key));
      RekeyAllSnoc(parent, Items(fs), n);
    }
  }

  /** A value that is neither a dict nor a list is one pair under its key. */
  lemma FlatScalar(v: Json, key: string)
    requires IsScalar(v)
    ensures FlatValue(v, key) == [Field(key, v)]
  {
  }

  lemma RekeyAllSnoc(parent: string, fs: seq<Field>, n: nat)
    requires 0 < n <= |fs|
    ensures RekeyAll(parent, fs[..n]) == RekeyAll(parent, fs[..n - 1]) + [Rekey(parent, fs[n - 1])]
  {
    var a, b := RekeyAll(parent, fs[..n]), RekeyAll(parent, fs[..n - 1]) + [Rekey(parent, fs[n - 1])];
    assert |a| == |b|;
    forall i | 0 <= i < |a| ensures a[i] == b[i] {
      if i < n - 1 {
        assert fs[..n][i] == fs[..n - 1][i];
      }
    }
  }

  /** A non-empty list of non-dict elements gives one pair per element, keyed `key_1`, `key_2`, … in order. */
  lemma FlatScalarList(xs: seq<Json>, key: string)
    requires xs != [] && forall i :: 0 <= i < |xs| ==> !xs[i].JObj?
    ensures FlatValue(JList(xs), key) == seq(|xs|, i requires 0 <= i < |xs| => Field(ElementKey(key, i), xs[i]))
  {
    FlatListScalar(xs, key, |xs|);
  }

  lemma {:induction false} FlatListScalar(xs: seq<Json>, key: string, n: nat)
    requires n <= |xs| && forall i :: 0 <= i < |xs| ==> !xs[i].JObj?
    ensures FlatList(xs, key, n) == seq(n, i requires 0 <= i < n => Field(ElementKey(key, i), xs[i]))
  {
    if n > 0 {
      FlatListScalar(xs, key, n - 1);
    }
  }

  /** An empty list keeps its key with `None`. */
  lemma FlatEmptyList(key: string)
    ensures FlatValue(JList([]), key) == [Field(key, JNull)]
  {
  }

  lemma PrefixedShorter(p: string, q: string, x: string)
    requires Prefixed(p, q) && Prefixed(q, x)
    ensures Prefixed(p, x)
  {
    assert x[..|q|] == q && q[..|p|] == p;
    assert x[..|p|] == x[..|q|][..|p|];
  }

  lemma PrefixedTrans(p: string, q: string, r: seq<Field>)
    requires Prefixed(p, q)
    requires forall i :: 0 <= i < |r| ==> Prefixed(q, r[i].key)
    ensures forall i :: 0 <= i < |r| ==> Prefixed(p, r[i].key)
  {
    forall i | 0 <= i < |r| ensures Prefixed(p, r[i].key) {
      PrefixedShorter(p, q, r[i].key);
    }
  }

  /** Whatever holds of every pair a dict was built from holds of every entry of its items. */
  lemma ItemsKeep(fs: seq<Field>, p: Field -> bool)
    requires forall j :: 0 <= j < |fs| ==> p(fs[j])
    ensures forall i :: 0 <= i < |Items(fs)| ==> p(Items(fs)[i])
  {
    forall i | 0 <= i < |Items(fs)| ensures p(Items(fs)[i]) {
      ItemsMember(fs, i);
      var f := Items(fs)[i];
      var j := LastIndex(fs, f.key);
      assert Lookup(fs, f.key) == Some(fs[j].val);
      assert f == fs[j];
    }
  }
}
