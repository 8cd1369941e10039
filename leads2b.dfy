/**
 * The Leads2b connector: listings paged by page number, stopping at a missing endpoint (404), an
 * empty page, a short page or the 100-page ceiling; the rows of the leads and negotiations
 * tables.
 */
module Leads2b {
  import opened Json
  import opened Http
  import opened Seqs
  import opened Dates

  const BaseUrl := "https://api-v2.leads2b.com/v2"

  /** Records asked for per page; a page with fewer is the last. */
  const PerPage := 100

  /** The safety ceiling on page requests. */
  const MaxPages := 100

  /** `f"{base_url}/{endpoint}"`. */
  function Url(endpoint: string): string {
    BaseUrl + "/" + endpoint
  }

  /** A GET of `_fetch_paginated`: the URL, the `access-token` header and the query parameters. */
  datatype Request = Request(url: string, token: Json, params: seq<Field>)

  /** `params["per_page"] = per_page`, set once before the loop. */
  function WithPerPage(params: seq<Field>): seq<Field> {
    SetField(params, "per_page", JInt(PerPage))
  }

  /** The request for each page: `base` with the page set. */
  function Requests(url: string, token: Json, base: seq<Field>): int -> Request {
    (p: int) => Request(url, token, SetField(base, "page", JInt(p)))
  }

  /**
   * The page value of a reply body: `data["data"]` (default `[]`) of a dict, or the body itself
   * when that is falsy and the body is a list.
   */
  function PageValue(data: Json): (v: Json)
    ensures data.JList? ==> v == data
    ensures data.JObj? && Truthy(GetOr(data, "data", JList([]))) ==> v == GetOr(data, "data", JList([]))
    ensures !data.JObj? && !data.JList? ==> v == JList([])
  {
    var items := if data.JObj? then GetOr(data, "data", JList([])) else JList([]);
    if !Truthy(items) && data.JList? then data else items
  }

  /** What one reply makes the loop do. */
  datatype Outcome =
    | NotFound                   // 404: stop quietly, keeping what was collected
    | Failure                    // the request raised, `raise_for_status()` did, or `extend` refused the page
    | NoRecords                  // a falsy page: stop
    | Short(items: seq<Json>)    // fewer than 100 records: keep them and stop
    | Full(items: seq<Json>)     // a full page: keep it and go on

  function Classify(r: Reply): (o: Outcome)
    ensures o.NotFound? <==> r.Reply? && r.status == 404
    ensures o.Failure? <==> (r.Raised? || (r.status != 404 && RaisesForStatus(r.status))
      || (!Failed(r) && Truthy(PageValue(r.body)) && Extended(PageValue(r.body)).None?))
    ensures o.NoRecords? <==> !Failed(r) && !Truthy(PageValue(r.body))
    ensures o.Short? <==> (!Failed(r) && Truthy(PageValue(r.body)) && Extended(PageValue(r.body)).Some?
      && |Extended(PageValue(r.body)).value| < PerPage)
    ensures o.Full? <==> (!Failed(r) && Truthy(PageValue(r.body)) && Extended(PageValue(r.body)).Some?
      && |Extended(PageValue(r.body)).value| >= PerPage)
    ensures o.Short? || o.Full? ==> Extended(PageValue(r.body)) == Some(o.items)
  {
    if r.Raised? then Failure
    else if r.status == 404 then NotFound
    else if RaisesForStatus(r.status) then Failure
    else
      var v := PageValue(r.body);
      if !Truthy(v) then NoRecords
      else match Extended(v)
        case None => Failure
        case Some(xs) => if |xs| < PerPage then Short(xs) else Full(xs)
  }

  /** The outcome of every page, given the reply to each page's request. */
  function Outcomes(replies: int -> Reply): int -> Outcome {
    (p: int) => Classify(replies(p))
  }

  /** The records an outcome keeps. */
  function Records(o: Outcome): seq<Json> {
    if o.Short? || o.Full? then o.items else []
  }

  /**
   * The loop of `_fetch_paginated` from the request for `page` on: a 404 ends it quietly, a
   * raised request escapes, an empty or short page ends it, and a full page goes on unless the
   * next page would pass the ceiling.
   */
  function Run(steps: int -> Outcome, req: int -> Request, page: int): Fetched<Request>
    decreases MaxPages - page
  {
    var q := req(page);
    match steps(page)
    case NotFound => Fetched([], [q], RequestFailed)
    case Failure => Fetched([], [q], Crashed)
    case NoRecords => Fetched([], [q], Finished)
    case Short(xs) => Fetched(xs, [q], Finished)
    case Full(xs) => if page + 1 > MaxPages then Fetched(xs, [q], Finished) else Then(xs, q, Run(steps, req, page + 1))
  }

  /** `_fetch_paginated(endpoint, params)` over the replies to its requests. */
  function PageRun(token: Json, endpoint: string, params: seq<Field>, replies: int -> Reply): Fetched<Request> {
    Run(Outcomes(replies), Requests(Url(endpoint), token, WithPerPage(params)), 1)
  }

  /**
   * The loop body's reading of one reply: a 404 breaks, `raise_for_status()` raises, then the
   * page value is picked (`data["data"]` of a dict, else the list itself), checked for records,
   * handed to `extend` (which raises TypeError for a number or a boolean) and measured with `len`.
   */
  method ReadPage(reply: Reply) returns (o: Outcome)
    ensures o == Classify(reply)
  {
    if reply.Reply? && reply.status == 404 {
      return NotFound;
    }
    if reply.Raised? || RaisesForStatus(reply.status) {
      return Failure;
    }
    var data := reply.body;
    var items := if data.JObj? then GetOr(data, "data", JList([])) else JList([]);
    if !Truthy(items) && data.JList? {
      items := data;
    }
    if !Truthy(items) {
      return NoRecords;
    }
    var added := Extended(items);
    if added.None? {
      return Failure;
    }
    if |added.value| < PerPage {
      return Short(added.value);
    }
    return Full(added.value);
  }

  /** `params["page"] = page` and the GET with it: the dict now holds `page`, replacing the previous one. */
  method PageRequest(url: string, token: Json, base: seq<Field>, page: int) returns (q: Request)
    ensures q == Requests(url, token, base)(page)
  {
    var ps := SetField(base, "page", JInt(page));
    q := Request(url, token, ps);
  }

  /**
   * `_fetch_paginated`: `replies(p)` answers the request for page `p`. The parameters get
   * `per_page` once and `page` before every request; as the previous `page` is overwritten,
   * the dict sent for page `p` is the one with `per_page` and `p` set.
   */
  method FetchPaginated(token: Json, endpoint: string, params: seq<Field>, replies: int -> Reply)
    returns (r: Fetched<Request>)
    ensures r == PageRun(token, endpoint, params, replies)
  {
    var url := Url(endpoint);
    var all: seq<Json> := [];
    var sent: seq<Request> := [];
    var page := 1;
    var base := WithPerPage(params);
    ghost var steps, req := Outcomes(replies), Requests(url, token, base);
    ResumeEmpty(Run(steps, req, 1));
    while true
      invariant 1 <= page <= MaxPages
      invariant Run(steps, req, 1) == Resume(all, sent, Run(steps, req, page))
      decreases MaxPages - page
    {
      var q := PageRequest(url, token, base, page);
      var o := ReadPage(replies(page));
      if o.NotFound? {
        return Fetched(all, sent + [q], RequestFailed);
      }
      if o.Failure? {
        return Fetched(all, sent + [q], Crashed);
      }
      if o.NoRecords? {
        return Fetched(all, sent + [q], Finished);
      }
      if o.Short? {
        return Fetched(all + o.items, sent + [q], Finished);
      }
      if page + 1 > MaxPages {
        return Fetched(all + o.items, sent + [q], Finished);
      }
      ResumeThen(all, sent, o.items, q, Run(steps, req, page + 1));
      all, sent := all + o.items, sent + [q];
      page := page + 1;
    }
  }

  /**
   * The requests ask for consecutive pages from `page`, never past page 100, and paging goes past
   * a page only when it was full.
   */
  lemma {:induction false} RunRequests(steps: int -> Outcome, req: int -> Request, page: int)
    requires page <= MaxPages
    ensures var f := Run(steps, req, page); var n := |f.requests|;
      && 1 <= n <= MaxPages - page + 1
      && (forall k :: 0 <= k < n ==> f.requests[k] == req(page + k))
      && (forall p :: page <= p < page + n - 1 ==> steps(p).Full?)
    decreases MaxPages - page
  {
    var f := Run(steps, req, page);
    if steps(page).Full? && page + 1 <= MaxPages {
      RunRequests(steps, req, page + 1);
      var g := Run(steps, req, page + 1);
      assert f == Then(steps(page).items, req(page), g);
      assert forall k :: 1 <= k < |f.requests| ==> f.requests[k] == g.requests[k - 1];
    }
  }

  /**
   * How paging ends: quietly at a 404, escaping at a request that raised, and finished at a
   * falsy page, a short page, or a full page 100.
   */
  lemma {:induction false} RunStop(steps: int -> Outcome, req: int -> Request, page: int)
    requires page <= MaxPages
    ensures var f := Run(steps, req, page); var p := page + |f.requests| - 1;
      && !f.stop.OutOfReplies?
      && (f.stop.RequestFailed? <==> steps(p).NotFound?)
      && (f.stop.Crashed? <==> steps(p).Failure?)
      && (f.stop.Finished? <==> steps(p).NoRecords? || steps(p).Short? || (steps(p).Full? && p == MaxPages))
    decreases MaxPages - page
  {
    if steps(page).Full? && page + 1 <= MaxPages {
      RunStop(steps, req, page + 1);
      var f, g := Run(steps, req, page), Run(steps, req, page + 1);
      assert f == Then(steps(page).items, req(page), g);
      assert page + |f.requests| - 1 == page + 1 + |g.requests| - 1;
    }
  }

  /** The records of the pages from `page`, `n` pages long, joined in request order. */
  function Span(steps: int -> Outcome, page: int, n: nat): seq<Json>
    decreases n
  {
    if n == 0 then [] else Records(steps(page)) + Span(steps, page + 1, n - 1)
  }

  /**
   * The records are the pages joined in request order; a 404 or a raised request contributes
   * nothing, and what came before it is kept.
   */
  lemma {:induction false} RunRecords(steps: int -> Outcome, req: int -> Request, page: int)
    ensures var f := Run(steps, req, page); f.items == Span(steps, page, |f.requests|)
    decreases MaxPages - page
  {
    var f := Run(steps, req, page);
    if steps(page).Full? && page + 1 <= MaxPages {
      RunRecords(steps, req, page + 1);
      assert f == Then(steps(page).items, req(page), Run(steps, req, page + 1));
    } else {
      assert Span(steps, page + 1, 0) == [];
    }
  }

  /** Full pages all the way make exactly 100 requests, and the loop finishes. */
  lemma {:induction false} Ceiling(steps: int -> Outcome, req: int -> Request, page: int)
    requires 1 <= page <= MaxPages
    requires forall p :: page <= p <= MaxPages ==> steps(p).Full?
    ensures var f := Run(steps, req, page); |f.requests| == MaxPages - page + 1 && f.stop.Finished?
    decreases MaxPages - page
  {
    if page < MaxPages {
      Ceiling(steps, req, page + 1);
    }
  }

  /** A reply with a full page of records. */
  predicate FullPage(r: Reply) {
    !Failed(r) && Truthy(PageValue(r.body)) && Extended(PageValue(r.body)).Some?
    && |Extended(PageValue(r.body)).value| >= PerPage
  }

  /** Replies that are all full pages give exactly 100 requests. */
  lemma CeilingReached(token: Json, endpoint: string, params: seq<Field>, replies: int -> Reply)
    requires forall p :: 1 <= p <= MaxPages ==> FullPage(replies(p))
    ensures var f := PageRun(token, endpoint, params, replies);
      |f.requests| == MaxPages && f.stop.Finished?
  {
    var steps := Outcomes(replies);
    forall p | 1 <= p <= MaxPages ensures steps(p).Full? {
      assert FullPage(replies(p));
    }
    Ceiling(steps, Requests(Url(endpoint), token, WithPerPage(params)), 1);
  }

  /** Runs over requests that agree page by page are the same run. */
  lemma {:induction false} RunSameRequests(steps: int -> Outcome, req: int -> Request, req2: int -> Request, page: int)
    requires forall p :: req(p) == req2(p)
    ensures Run(steps, req, page) == Run(steps, req2, page)
    decreases MaxPages - page
  {
    if steps(page).Full? && page + 1 <= MaxPages {
      RunSameRequests(steps, req, req2, page + 1);
    }
  }

  /** After paging, the dict holds `per_page` and the last page asked for, as the last request sent it. */
  lemma LastParams(f: Fetched<Request>, token: Json, endpoint: string, params: seq<Field>, replies: int -> Reply)
    requires f == PageRun(token, endpoint, params, replies)
    ensures |f.requests| >= 1 && f.requests[|f.requests| - 1].params == SetField(WithPerPage(params), "page", JInt(|f.requests|))
  {
    RunRequests(Outcomes(replies), Requests(Url(endpoint), token, WithPerPage(params)), 1);
  }

  /** Setting `per_page` and then `page` again on a dict that already went through paging gives the same dict as before. */
  lemma ReusedPage(params: seq<Field>, n: int, p: int)
    ensures SetField(WithPerPage(SetField(WithPerPage(params), "page", JInt(n))), "page", JInt(p))
      == SetField(WithPerPage(params), "page", JInt(p))
  {
    var w := WithPerPage(params);
    var after := SetField(w, "page", JInt(n));
    HoldsSet(params, "per_page", JInt(PerPage), "page", JInt(n));
    HoldsSet(w, "per_page", JInt(PerPage), "page", JInt(n));
    assert "per_page" != "page";
    SetFieldHeld(after, "per_page", JInt(PerPage));
    SetFieldTwice(w, "page", JInt(n), JInt(p));
  }

  /**
   * Paging with the dict a previous call updated in place (it now holds `per_page` and that
   * call's last `page`) sends the same requests, and so gives the same result, as with the dict
   * before that call.
   */
  lemma ReusedParams(token: Json, endpoint: string, params: seq<Field>, n: int, replies: int -> Reply)
    ensures PageRun(token, endpoint, SetField(WithPerPage(params), "page", JInt(n)), replies)
      == PageRun(token, endpoint, params, replies)
  {
    var url := Url(endpoint);
    var after := SetField(WithPerPage(params), "page", JInt(n));
    var req, req2 := Requests(url, token, WithPerPage(after)), Requests(url, token, WithPerPage(params));
    forall p ensures req(p) == req2(p) {
      ReusedPage(params, n, p);
    }
    RunSameRequests(Outcomes(replies), req, req2, 1);
  }

  // ---------------------------------------------------------------------------------------------
  // Rows

  /** A `leads2b_leads` row. */
  datatype Lead = Lead(id: string, name: Json, email: Json, status: Json, funnelStage: Json,
    source: Json, createdAt: Json, updatedAt: Json)

  /** A `leads2b_negotiations` row. */
  datatype Negotiation = Negotiation(id: string, leadId: string, title: Json, value: Json,
    status: Json, createdAt: Json, updatedAt: Json)

  /** The two tables `extract` returns. */
  datatype Tables = Tables(leads: seq<Lead>, negotiations: seq<Negotiation>)

  /** `funnel_stage`: the stage's `name` when the field is a dict, else the field as it is. */
  function FunnelStage(l: Json): (r: Json)
    ensures At(l, "funnel_stage").JObj? ==> r == At(At(l, "funnel_stage"), "name")
    ensures !At(l, "funnel_stage").JObj? ==> r == At(l, "funnel_stage")
  {
    var f := At(l, "funnel_stage");
    if f.JObj? then At(GetOr(l, "funnel_stage", JObj([])), "name") else f
  }

  function LeadRow(l: Json): Lead {
    Lead(PyStr(At(l, "id")), At(l, "name"), At(l, "email"), At(l, "status"), FunnelStage(l),
      At(l, "source"), At(l, "created_at"), At(l, "updated_at"))
  }

  /** `float(n.get("value", 0)) if n.get("value") else 0.0`. */
  function NegotiationValue(n: Json): (r: Json)
    ensures !Truthy(At(n, "value")) ==> r == JFloat("0.0")
    ensures Truthy(At(n, "value")) ==> r == ToFloat(At(n, "value"))
  {
    if Truthy(At(n, "value")) then ToFloat(GetOr(n, "value", JInt(0))) else JFloat("0.0")
  }

  function NegotiationRow(n: Json): Negotiation {
    Negotiation(PyStr(At(n, "id")), PyStr(At(n, "lead_id")), At(n, "title"), NegotiationValue(n),
      At(n, "status"), At(n, "created_at"), At(n, "updated_at"))
  }

  /** Ids are written as `str` of the record's value, `"None"` when it is absent; a missing value is 0.0. */
  lemma RowIds(l: Json, n: Json)
    ensures LeadRow(l).id == PyStr(At(l, "id")) && NegotiationRow(n).leadId == PyStr(At(n, "lead_id"))
    ensures !Has(l, "id") ==> LeadRow(l).id == "None"
    ensures !Has(n, "value") ==> NegotiationRow(n).value == JFloat("0.0")
  {
  }

  /** The filters of both listings: the days of the window as `%Y-%m-%d`. */
  function DateParams(first: string, last: string): seq<Field> {
    [Field("start_date", JStr(first)), Field("end_date", JStr(last))]
  }

  /**
   * `extract(date_start, date_stop)`: the leads, then the negotiations, both with the one
   * filter dict (which the first call leaves holding `per_page` and its last `page`). A 404 only
   * ends its own listing; a request that raises escapes the connector.
   */
  method Extract(token: Json, start: DateTime, stop: DateTime, leadReplies: int -> Reply, negotiationReplies: int -> Reply)
    returns (tables: Option<Tables>)
    ensures var params := DateParams(IsoDate(start), IsoDate(stop));
      var fl := PageRun(token, "leads", params, leadReplies);
      var fn := PageRun(token, "negotiations", params, negotiationReplies);
      && (tables.Some? <==> !fl.stop.Crashed? && !fn.stop.Crashed?)
      && (tables.Some? ==> tables.value == Tables(Map(fl.items, LeadRow), Map(fn.items, NegotiationRow)))
  {
    var params := DateParams(IsoDate(start), IsoDate(stop));
    var fl := FetchPaginated(token, "leads", params, leadReplies);
    if fl.stop.Crashed? {
      return None;
    }
    var leads := BuildRows(fl.items, LeadRow);
    LastParams(fl, token, "leads", params, leadReplies);
    // the dict was updated in place: it holds what the last request of the leads sent
    var after := fl.requests[|fl.requests| - 1].params;
    var fn := FetchPaginated(token, "negotiations", after, negotiationReplies);
    assert after == SetField(WithPerPage(params), "page", JInt(|fl.requests|));
    ReusedParams(token, "negotiations", params, |fl.requests|, negotiationReplies);
    assert fn == PageRun(token, "negotiations", params, negotiationReplies);
    if fn.stop.Crashed? {
      return None;
    }
    var negotiations := BuildRows(fn.items, NegotiationRow);
    return Some(Tables(leads, negotiations));
  }
}
