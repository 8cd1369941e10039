/**
 * The PayTour connector: login with HTTP Basic credentials (application key and secret, else
 * e-mail and password), paging by page number against the page count each reply reports, and the
 * rows of the orders, order items, tours, combos and coupons tables.
 */
module PayTour {
  import opened Json
  import opened Http
  import opened Seqs
  import opened Dates
  import opened Base64
  import opened Text

  const BaseUrl := "https://api.paytour.com.br/v2"

  /** Records asked for per page. */
  const PerPage := 100

  /** The five settings `_authenticate` reads. */
  datatype Credentials = Credentials(email: Json, password: Json, lojaId: Json, appKey: Json, appSecret: Json)

  /** The login request: where it is posted and its `Authorization` header. */
  datatype Login = Login(url: string, authorization: string)

  /** A header that carries `user`, a colon and `secret` in base64, as section 2 of RFC 7617 describes. */
  predicate CarriesBasic(header: string, user: string, secret: string) {
    |header| >= 6 && header[..6] == "Basic "
    && Decode(header[6..]) == Some(Utf8(user) + [':' as int as byte] + Utf8(secret))
  }

  predicate HasAppKeys(c: Credentials) {
    Truthy(c.appKey) && Truthy(c.appSecret)
  }

  predicate HasPassword(c: Credentials) {
    Truthy(c.email) && Truthy(c.password)
  }

  /**
   * The login `_authenticate` sends: the application grant when both application credentials are
   * set, else the password grant for the store when e-mail and password are set, else the
   * ValueError raised before any request.
   */
  function LoginRequest(c: Credentials): (r: Result<Login>)
    ensures r.Ok? <==> HasAppKeys(c) || HasPassword(c)
    ensures HasAppKeys(c) ==>
      (r.value.url == BaseUrl + "/lojas/login?grant_type=application"
       && CarriesBasic(r.value.authorization, PyStr(c.appKey), PyStr(c.appSecret)))
    ensures !HasAppKeys(c) && HasPassword(c) ==>
      (r.value.url == BaseUrl + "/lojas/login?grant_type=password&loja_id=" + PyStr(c.lojaId)
       && CarriesBasic(r.value.authorization, PyStr(c.email), PyStr(c.password)))
  {
    if HasAppKeys(c) then
      BasicAuthDecodes(PyStr(c.appKey), PyStr(c.appSecret));
      Ok(Login(BaseUrl + "/lojas/login?grant_type=application", BasicAuth(PyStr(c.appKey), PyStr(c.appSecret))))
    else if HasPassword(c) then
      BasicAuthDecodes(PyStr(c.email), PyStr(c.password));
      Ok(Login(BaseUrl + "/lojas/login?grant_type=password&loja_id=" + PyStr(c.lojaId),
               BasicAuth(PyStr(c.email), PyStr(c.password))))
    else Err("PayTour credentials are not configured")
  }

  /**
   * What `_authenticate` ends with: the new access token (`data.get("access_token")`, None when
   * absent), or the exception it raises before or after the login request; `data.get` raises
   * when the body is not a dict.
   */
  function AuthResult(c: Credentials, reply: Reply): (r: Result<Json>)
    ensures r.Ok? <==> LoginRequest(c).Ok? && !Failed(reply) && reply.body.JObj?
    ensures r.Ok? ==> r.value == (if Has(reply.body, "access_token") then Lookup(reply.body.fields, "access_token").value else JNull)
  {
    if LoginRequest(c).Err? then Err(LoginRequest(c).error)
    else if Failed(reply) then Err("login request failed")
    else if !reply.body.JObj? then Err("login body is not a dict")
    else Ok(At(reply.body, "access_token"))
  }

  /** A request of `_fetch_paginated`: its `Authorization` header and its query parameters. */
  datatype Request = Request(authorization: string, params: seq<Field>)

  /** The `Authorization` header of `_get_headers`. */
  function Bearer(token: Json): string {
    "Bearer " + PyStr(token)
  }

  class Connector {
    const creds: Credentials
    var accessToken: Json

    /** `__init__` without its login: each argument that is falsy falls back to its setting. */
    constructor(given: Credentials, settings: Credentials)
      ensures creds == Credentials(Or(given.email, settings.email), Or(given.password, settings.password),
        Or(given.lojaId, settings.lojaId), Or(given.appKey, settings.appKey), Or(given.appSecret, settings.appSecret))
      ensures accessToken == JNull
    {
      creds := Credentials(Or(given.email, settings.email), Or(given.password, settings.password),
        Or(given.lojaId, settings.lojaId), Or(given.appKey, settings.appKey), Or(given.appSecret, settings.appSecret));
      accessToken := JNull;
    }

    /**
     * `_authenticate`; `reply` answers the login request if one is made. `sent` is that
     * request; the token is stored only when the method returns normally.
     */
    method Authenticate(reply: Reply) returns (sent: Option<Login>, r: Result<Json>)
      modifies this
      ensures sent == (if LoginRequest(creds).Ok? then Some(LoginRequest(creds).value) else None)
      ensures r == AuthResult(creds, reply)
      ensures accessToken == (if r.Ok? then r.value else old(accessToken))
    {
      var login := LoginRequest(creds);
      if login.Err? {
        return None, Err(login.error);
      }
      sent := Some(login.value);
      if reply.Raised? || RaisesForStatus(reply.status) {
        return sent, Err("login request failed");
      }
      if !reply.body.JObj? {
        return sent, Err("login body is not a dict");
      }
      accessToken := At(reply.body, "access_token");
      r := Ok(accessToken);
    }

    /**
     * `_fetch_paginated(endpoint, params)`: `replies[i]` answers the `i`-th request. The
     * parameters get `perPage` once and `page` before every request, as the source sets them
     * on its dict.
     */
    method FetchPaginated(replies: seq<Reply>, params: seq<Field>) returns (r: Fetched<Request>)
      ensures r == PageRun(replies, Bearer(accessToken), params, 1)
    {
      var auth := Bearer(accessToken);
      var items: seq<Json> := [];
      var sent: seq<Request> := [];
      var page := 1;
      var ps := WithPerPage(params);
      ghost var steps, base, req := Steps(replies, 1), ps, Requests(auth, ps);
      var i := 0;
      ResumeEmpty(StepRun(steps, req, 1));
      while i < |replies|
        invariant 0 <= i <= |replies| && page == i + 1
        invariant i == 0 ==> ps == base
        invariant i > 0 ==> ps == SetField(base, "page", JInt(i))
        invariant StepRun(steps, req, 1) == Resume(items, sent, StepRun(steps[i..], req, page))
      {
        StepRunAt(steps, req, i, page);
        if i > 0 {
          SetFieldTwice(base, "page", JInt(i), JInt(page));
        }
        ps := SetField(ps, "page", JInt(page));
        var q := Request(auth, ps);
        assert q == req(page);
        var step := ReadReply(replies[i], page);
        assert step == steps[i];
        if !step.More? {
          return Fetched(items + StepItems(step), sent + [q], EndOf(step));
        }
        ResumeThen(items, sent, step.items, q, StepRun(steps[i + 1..], req, page + 1));
        items, sent := items + step.items, sent + [q];
        page := page + 1;
        i := i + 1;
      }
      assert steps[i..] == [];
      return Fetched(items, sent, OutOfReplies);
    }

    /**
     * `extract(date_start, date_stop)`: the orders of the window (with their items), then tours,
     * combos and coupons, each from its own run of replies. A request that raises, or an `int()`
     * of the orders or tours loop that raises, escapes the connector, so the tables come back
     * only when every step finished.
     */
    method Extract(start: DateTime, stop: DateTime, orderReplies: seq<Reply>, tourReplies: seq<Reply>,
                   comboReplies: seq<Reply>, couponReplies: seq<Reply>)
      returns (tables: Option<Tables>, ended: Stop)
      ensures var auth := Bearer(accessToken);
        var fo := PageRun(orderReplies, auth, OrderWindow(IsoDate(start), IsoDate(stop)), 1);
        var ft := PageRun(tourReplies, auth, [], 1);
        var fc := PageRun(comboReplies, auth, [], 1);
        var fk := PageRun(couponReplies, auth, [], 1);
        && ended == (if !fo.stop.Finished? then fo.stop
          else if !QuantitiesOk(fo.items) then Crashed
          else if !ft.stop.Finished? then ft.stop
          else if !TourIdsOk(ft.items) then Crashed
          else if !fc.stop.Finished? then fc.stop
          else fk.stop)
        && (tables.Some? <==> ended.Finished?)
        && (tables.Some? ==> tables.value == Tables(Map(fo.items, OrderRow), Concat(Map(fo.items, ItemRows)),
              Map(ft.items, TourRow), Map(fc.items, ComboRow), Map(fk.items, CouponRow)))
    {
      var fo := FetchPaginated(orderReplies, OrderWindow(IsoDate(start), IsoDate(stop)));
      if !fo.stop.Finished? {
        return None, fo.stop;
      }
      var orders, orderItems, ok := OrderRows(fo.items);
      if !ok {
        return None, Crashed;
      }
      var ft := FetchPaginated(tourReplies, []);
      if !ft.stop.Finished? {
        return None, ft.stop;
      }
      var tours;
      tours, ok := TourRows(ft.items);
      if !ok {
        return None, Crashed;
      }
      var fc := FetchPaginated(comboReplies, []);
      if !fc.stop.Finished? {
        return None, fc.stop;
      }
      var combos := BuildRows(fc.items, ComboRow);
      var fk := FetchPaginated(couponReplies, []);
      if !fk.stop.Finished? {
        return None, fk.stop;
      }
      var coupons := BuildRows(fk.items, CouponRow);
      return Some(Tables(orders, orderItems, tours, combos, coupons)), Finished;
    }
  }

  // ---------------------------------------------------------------------------------------------
  // Paging

  /** The dict `_fetch_paginated` works on: the caller's parameters with `perPage` set. */
  function WithPerPage(params: seq<Field>): seq<Field> {
    SetField(params, "perPage", JInt(PerPage))
  }

  /**
   * The request for `page` carries the header, `perPage` 100, that page number, and every other
   * parameter of the caller.
   */
  lemma RequestFor(auth: string, params: seq<Field>, page: int)
    ensures var q := Requests(auth, WithPerPage(params))(page);
      && q.authorization == auth
      && Lookup(q.params, "perPage") == Some(JInt(PerPage)) && Lookup(q.params, "page") == Some(JInt(page))
      && forall k :: k != "perPage" && k != "page" ==> Lookup(q.params, k) == Lookup(params, k)
  {
  }

  /** `data.get("info", {}).get("total_paginas", 1)`. */
  function TotalPages(body: Json): Json {
    GetOr(GetOr(body, "info", JObj([])), "total_paginas", JInt(1))
  }

  /** `data.get("itens", [])`. */
  function PageList(body: Json): Json {
    GetOr(body, "itens", JList([]))
  }

  /**
   * A reply the loop cannot read: a failed request, a body that is not an object (`data.get`
   * raises), or records that `extend` refuses (a truthy number or boolean).
   */
  predicate Unreadable(r: Reply) {
    Failed(r) || !r.body.JObj? || (Truthy(PageList(r.body)) && Extended(PageList(r.body)).None?)
  }

  /** The records a reply contributes: what `extend` appends, none when the loop does not get that far. */
  function PageItemsOf(r: Reply): seq<Json> {
    if Failed(r) || !r.body.JObj? || !Truthy(PageList(r.body)) then []
    else match Extended(PageList(r.body))
      case Some(xs) => xs
      case None => []
  }

  /**
   * `page >= info.get("total_paginas", 1)` with `info = data.get("info", {})`: None when
   * `info.get` raises (`info` is not an object) or the comparison does.
   */
  function PageCompare(page: int, body: Json): (c: Option<bool>)
    ensures !GetOr(body, "info", JObj([])).JObj? ==> c.None?
    ensures GetOr(body, "info", JObj([])).JObj? ==> c == AtLastPage(page, TotalPages(body))
  {
    if GetOr(body, "info", JObj([])).JObj? then AtLastPage(page, TotalPages(body)) else None
  }

  /** The reply to the request for `page`, read the way the loop body reads it. */
  function Classify(r: Reply, page: int): (s: Step)
    ensures s.Raise? <==> Unreadable(r)
    ensures s.Empty? <==> !Failed(r) && r.body.JObj? && !Truthy(PageList(r.body))
    ensures s.Last? <==> (!Unreadable(r) && Truthy(PageList(r.body)) && PageCompare(page, r.body) == Some(true))
    ensures s.More? <==> (!Unreadable(r) && Truthy(PageList(r.body)) && PageCompare(page, r.body) == Some(false))
    ensures s.BadTotal? <==> (!Unreadable(r) && Truthy(PageList(r.body)) && PageCompare(page, r.body).None?)
    ensures !s.Raise? && !s.Empty? ==> s.items == PageItemsOf(r) == Extended(PageList(r.body)).value
  {
    if Failed(r) || !r.body.JObj? then Raise
    else if !Truthy(PageList(r.body)) then Empty
    else match Extended(PageList(r.body))
      case None => Raise
      case Some(xs) =>
        match PageCompare(page, r.body)
        case None => BadTotal(xs)
        case Some(true) => Last(xs)
        case Some(false) => More(xs)
  }

  /** The steps of a run of replies, the first answering the request for `page`. */
  function Steps(replies: seq<Reply>, page: int): (steps: seq<Step>)
    ensures |steps| == |replies|
    ensures forall k :: 0 <= k < |replies| ==> steps[k] == Classify(replies[k], page + k)
  {
    seq(|replies|, k requires 0 <= k < |replies| => Classify(replies[k], page + k))
  }

  /**
   * The loop of `_fetch_paginated` from the request for `page` on, over the steps of the
   * replies. A request that raises escapes; falsy `itens` ends paging; otherwise the page is
   * kept, and paging ends once `page` reaches the reported page count, or escapes when the
   * comparison raises.
   */
  function StepRun(steps: seq<Step>, req: int -> Request, page: int): Fetched<Request>
    decreases |steps|
  {
    if steps == [] then Fetched([], [], OutOfReplies)
    else
      var q := req(page);
      match steps[0]
      case Raise => Fetched([], [q], Crashed)
      case Empty => Fetched([], [q], Finished)
      case Last(xs) => Fetched(xs, [q], Finished)
      case BadTotal(xs) => Fetched(xs, [q], Crashed)
      case More(xs) => Then(xs, q, StepRun(steps[1..], req, page + 1))
  }

  /**
   * The loop body's reading of the reply to the request for `page`: a request that raises, `.get`
   * on a body that is not an object, falsy `itens`, `extend`, then `page >= total_paginas` (None
   * when `info.get` or the comparison raises).
   */
  method ReadReply(reply: Reply, page: int) returns (step: Step)
    ensures step == Classify(reply, page)
  {
    if reply.Raised? || RaisesForStatus(reply.status) || !reply.body.JObj? {
      return Raise;
    }
    var data := reply.body;
    var pageItems := PageList(data);
    if !Truthy(pageItems) {
      return Empty;
    }
    var added := Extended(pageItems);
    if added.None? {
      return Raise;
    }
    var info := GetOr(data, "info", JObj([]));
    if !info.JObj? {
      return BadTotal(added.value);
    }
    var last := AtLastPage(page, GetOr(info, "total_paginas", JInt(1)));
    if last.None? {
      return BadTotal(added.value);
    }
    if last.value {
      return Last(added.value);
    }
    return More(added.value);
  }

  /** How a step that ends the loop ends it: a raise escapes, an empty or last page finishes. */
  function EndOf(s: Step): Stop {
    if s.Raise? || s.BadTotal? then Crashed else Finished
  }

  /** The run from the `i`-th step on: that step alone when it ends the loop, else its page and the rest. */
  lemma StepRunAt(steps: seq<Step>, req: int -> Request, i: int, page: int)
    requires 0 <= i < |steps|
    ensures var q, f := req(page), StepRun(steps[i..], req, page);
      && (!steps[i].More? ==> f == Fetched(StepItems(steps[i]), [q], EndOf(steps[i])))
      && (steps[i].More? ==> f == Then(steps[i].items, q, StepRun(steps[i + 1..], req, page + 1)))
  {
    assert steps[i..][0] == steps[i] && steps[i..][1..] == steps[i + 1..];
  }

  /** `_fetch_paginated` from the request for `page` on, over the replies to it and the ones after. */
  function PageRun(replies: seq<Reply>, auth: string, params: seq<Field>, page: int): Fetched<Request> {
    StepRun(Steps(replies, page), Requests(auth, WithPerPage(params)), page)
  }

  /** The request for each page: the same header, and `base` (the caller's parameters with `perPage` set) with the page set. */
  function Requests(auth: string, base: seq<Field>): int -> Request {
    (p: int) => Request(auth, SetField(base, "page", JInt(p)))
  }

  /**
   * The requests ask for consecutive pages with `perPage` set and the same header, one request per
   * reply at most, and paging goes past a page only when that page had records and was not the
   * last reported.
   */
  lemma {:induction false} StepRequests(steps: seq<Step>, req: int -> Request, page: int)
    ensures var f := StepRun(steps, req, page); var n := |f.requests|;
      && n <= |steps| && (steps != [] ==> n > 0)
      && (forall k :: 0 <= k < n ==> f.requests[k] == req(page + k))
      && (forall k :: 0 <= k < n - 1 ==> steps[k].More?)
    decreases |steps|
  {
    if steps != [] && steps[0].More? {
      StepRequests(steps[1..], req, page + 1);
      var f, g := StepRun(steps, req, page), StepRun(steps[1..], req, page + 1);
      assert f == Then(steps[0].items, req(page), g);
      assert forall k :: 1 <= k < |f.requests| ==> f.requests[k] == g.requests[k - 1];
      assert forall k :: 1 <= k < |steps| ==> steps[k] == steps[1..][k - 1];
    }
  }

  /**
   * How paging ends: `Finished` at a page with falsy `itens` or at the reported last page,
   * `Crashed` at a request that raised or a page count that cannot be compared, and the end of
   * the supply only when every reply so far asked for more.
   */
  lemma {:induction false} StepStop(steps: seq<Step>, req: int -> Request, page: int)
    ensures var f := StepRun(steps, req, page); var n := |f.requests|;
      && n <= |steps|
      && (f.stop.OutOfReplies? ==> n == |steps|)
      && (f.stop.Finished? ==> n > 0 && (steps[n - 1].Empty? || steps[n - 1].Last?))
      && (f.stop.Crashed? ==> n > 0 && (steps[n - 1].Raise? || steps[n - 1].BadTotal?))
      && !f.stop.RequestFailed?
    decreases |steps|
  {
    if steps != [] && steps[0].More? {
      StepStop(steps[1..], req, page + 1);
      var f, g := StepRun(steps, req, page), StepRun(steps[1..], req, page + 1);
      assert f == Then(steps[0].items, req(page), g);
      var n := |f.requests|;
      if n > 1 {
        assert steps[n - 1] == steps[1..][n - 2];
      }
    }
  }

  /** The records are the pages' `itens` joined in request order (`all_items.extend`). */
  lemma {:induction false} StepRecords(steps: seq<Step>, req: int -> Request, page: int)
    ensures var f := StepRun(steps, req, page);
      |f.requests| <= |steps| && f.items == PagesOf(steps, |f.requests|, StepItems)
    decreases |steps|
  {
    if steps != [] {
      var f := StepRun(steps, req, page);
      if steps[0].More? {
        StepRecords(steps[1..], req, page + 1);
        var g := StepRun(steps[1..], req, page + 1);
        assert f == Then(steps[0].items, req(page), g);
        PagesOfCons(steps, |f.requests|, StepItems);
      } else {
        PagesOfCons(steps, 1, StepItems);
      }
    }
  }

  /** A first page with records and no reported page count is the only request. */
  lemma SinglePage(replies: seq<Reply>, auth: string, params: seq<Field>)
    requires replies != [] && !Unreadable(replies[0]) && Truthy(PageList(replies[0].body))
    requires GetOr(replies[0].body, "info", JObj([])).JObj? && !Has(GetOr(replies[0].body, "info", JObj([])), "total_paginas")
    ensures PageRun(replies, auth, params, 1)
      == Fetched(PageItemsOf(replies[0]), [Requests(auth, WithPerPage(params))(1)], Finished)
  {
    assert Steps(replies, 1)[0] == Classify(replies[0], 1);
  }

  /** Every step up to the one for page `total` asks for more, and that one is the last. */
  predicate Steady(steps: seq<Step>, page: int, total: int) {
    page <= total && total - page < |steps|
    && (forall k :: 0 <= k < total - page ==> steps[k].More?)
    && steps[total - page].Last?
  }

  /** With replies that report `total` pages and have records, pages `page` to `total` are asked for. */
  lemma {:induction false} StepsUpToTotal(steps: seq<Step>, req: int -> Request, page: int, total: int)
    requires page <= total && Steady(steps, page, total)
    ensures var f := StepRun(steps, req, page);
      |f.requests| == total - page + 1 && f.stop.Finished?
    decreases total - page
  {
    if page < total {
      assert Steady(steps[1..], page + 1, total) by {
        assert forall k :: 0 <= k < |steps| - 1 ==> steps[1..][k] == steps[k + 1];
      }
      StepsUpToTotal(steps[1..], req, page + 1, total);
    }
  }

  /** A reply with records whose page count is the integer `total`. */
  predicate Reports(r: Reply, total: int) {
    !Unreadable(r) && Truthy(PageList(r.body)) && GetOr(r.body, "info", JObj([])).JObj?
    && TotalPages(r.body) == JInt(total)
  }

  /** Replies that all have records and report `total` pages give exactly `total` requests from page 1. */
  lemma PagesUpToTotal(replies: seq<Reply>, auth: string, params: seq<Field>, total: int)
    requires 1 <= total <= |replies| && forall k :: 0 <= k < |replies| ==> Reports(replies[k], total)
    ensures var f := PageRun(replies, auth, params, 1);
      |f.requests| == total && f.stop.Finished?
  {
    var steps := Steps(replies, 1);
    assert forall k :: 0 <= k < total - 1 ==> steps[k] == Classify(replies[k], 1 + k);
    StepsUpToTotal(steps, Requests(auth, WithPerPage(params)), 1, total);
  }

  // ---------------------------------------------------------------------------------------------
  // Rows

  /** A `paytour_orders` row; the columns are the source's keys in camel case. */
  datatype Order = Order(
    id: string, lojaId: string, valor: Json, desconto: Json,
    clienteNome: Json, clienteEmail: Json, clienteCpf: Json,
    dataHoraPedido: Json, dataHoraAtualizacao: Json,
    status: Json, statusPagamento: Json, metodoPagamento: Json,
    utmSource: Json, utmMedium: Json, utmCampaign: Json)

  /** A `paytour_order_items` row. */
  datatype OrderItem = OrderItem(
    id: string, pedidoId: string, valor: Json, produtoId: string, produtoTipo: Json,
    dataUtilizacao: Json, quantidade: Json, nomeProduto: Json)

  /** A `paytour_tours` row. */
  datatype Tour = Tour(id: Json, nome: Json, codigo: Json, precoExibicao: Json, ativo: int)

  /** A `paytour_combos` row. */
  datatype Combo = Combo(id: string, nome: Json, valor: Json, ativo: int)

  /** A `paytour_coupons` row. */
  datatype Coupon = Coupon(id: string, codigo: Json, tipo: Json, valor: Json, ativo: int)

  /** The five tables `extract` returns. */
  datatype Tables = Tables(orders: seq<Order>, orderItems: seq<OrderItem>, tours: seq<Tour>, combos: seq<Combo>, coupons: seq<Coupon>)

  /** `1 if v else 0`. */
  function Flag(v: Json): (r: int)
    ensures r == 1 <==> Truthy(v)
    ensures r == 0 <==> !Truthy(v)
  {
    if Truthy(v) then 1 else 0
  }

  /** `str(v.get(k))`. */
  function StrAt(v: Json, k: string): string {
    PyStr(At(v, k))
  }

  /** `float(v.get(k, 0))`. */
  function FloatAt(v: Json, k: string): Json {
    ToFloat(GetOr(v, k, JInt(0)))
  }

  /**
   * The parameters of the orders request for the days `first` to `last` (as `%Y-%m-%d`): the
   * update window from the start of the first day to the last second of the last, with items.
   */
  function OrderWindow(first: string, last: string): seq<Field> {
    [Field("updatedAtMin", JStr(first + " 00:00:00")),
     Field("updatedAtMax", JStr(last + " 23:59:59")),
     Field("includeItems", JInt(1))]
  }

  /**
   * Every orders request carries the window from `first 00:00:00` to `last 23:59:59`, asks for
   * the items, and pages with `perPage` 100.
   */
  lemma OrderWindowSent(auth: string, first: string, last: string, page: int)
    ensures var ps := Requests(auth, WithPerPage(OrderWindow(first, last)))(page).params;
      && Lookup(ps, "updatedAtMin") == Some(JStr(first + " 00:00:00"))
      && Lookup(ps, "updatedAtMax") == Some(JStr(last + " 23:59:59"))
      && Lookup(ps, "includeItems") == Some(JInt(1))
      && Lookup(ps, "page") == Some(JInt(page)) && Lookup(ps, "perPage") == Some(JInt(PerPage))
  {
    WindowFields(first, last);
    RequestFor(auth, OrderWindow(first, last), page);
  }

  /** The three fields of the window, looked up by name. */
  lemma WindowFields(first: string, last: string)
    ensures var w := OrderWindow(first, last);
      && Lookup(w, "updatedAtMin") == Some(JStr(first + " 00:00:00"))
      && Lookup(w, "updatedAtMax") == Some(JStr(last + " 23:59:59"))
      && Lookup(w, "includeItems") == Some(JInt(1))
  {
    var w := OrderWindow(first, last);
    assert "updatedAtMin"[10] != "updatedAtMax"[10];
    assert "includeItems"[0] != "updatedAtMin"[0] && "includeItems"[0] != "updatedAtMax"[0];
    assert w[..2][..1] == [w[0]] && w[..2] == [w[0], w[1]];
  }

  /** A `paytour_orders` row. */
  function OrderRow(p: Json): Order {
    Order(StrAt(p, "id"), StrAt(p, "loja_id"), FloatAt(p, "valor"), FloatAt(p, "desconto"),
      At(p, "cliente_nome"), At(p, "cliente_email"), At(p, "cliente_cpf"),
      At(p, "data_hora_pedido"), At(p, "data_hora_atualizacao"),
      At(p, "status"), At(p, "status_pagamento"), At(p, "metodo_pagamento"),
      At(p, "utm_source"), At(p, "utm_medium"), At(p, "utm_campaign"))
  }

  /** A `paytour_order_items` row for an item of order `p`. */
  function ItemRow(p: Json, item: Json): OrderItem {
    OrderItem(StrAt(item, "id"), StrAt(p, "id"), FloatAt(item, "valor"), StrAt(item, "produto_id"),
      At(item, "produto_tipo"), At(item, "data_utilizacao"),
      ToInt(GetOr(item, "quantidade", JInt(1))), At(item, "nome_produto"))
  }

  /** The nested `itens` of an order. */
  function OrderItems(p: Json): seq<Json> {
    Elems(GetOr(p, "itens", JList([])))
  }

  /** The item row builder of order `p`. */
  function ItemOf(p: Json): Json -> OrderItem {
    (item: Json) => ItemRow(p, item)
  }

  /** The item rows of one order, in item order. */
  function ItemRows(p: Json): seq<OrderItem> {
    Map(OrderItems(p), ItemOf(p))
  }

  /** A `paytour_tours` row. */
  function TourRow(t: Json): Tour {
    Tour(ToInt(At(t, "id")), At(t, "nome"), At(t, "codigo"), FloatAt(t, "preco_exibicao"), Flag(At(t, "ativo")))
  }

  /** A `paytour_combos` row. */
  function ComboRow(c: Json): Combo {
    Combo(StrAt(c, "id"), At(c, "nome"), FloatAt(c, "valor"), Flag(At(c, "ativo")))
  }

  /** A `paytour_coupons` row: the record's `code`, `type`, `value` and `active` under Portuguese names. */
  function CouponRow(c: Json): Coupon {
    Coupon(StrAt(c, "id"), At(c, "code"), At(c, "type"), FloatAt(c, "value"), Flag(At(c, "active")))
  }

  /** `int(item.get("quantidade", 1))` does not raise. */
  predicate QuantityOk(item: Json) {
    PyInt(GetOr(item, "quantidade", JInt(1))).Some?
  }

  /** Every nested item of order `p` has a quantity `int()` accepts. */
  predicate ItemsOk(p: Json) {
    All(OrderItems(p), QuantityOk)
  }

  /** No `int()` of the orders loop raises. */
  predicate QuantitiesOk(raw: seq<Json>) {
    All(raw, ItemsOk)
  }

  /** `int(t.get("id"))` does not raise. */
  predicate TourIdOk(t: Json) {
    PyInt(At(t, "id")).Some?
  }

  /** No `int()` of the tours loop raises. */
  predicate TourIdsOk(raw: seq<Json>) {
    All(raw, TourIdOk)
  }

  /**
   * The orders loop of `extract`: one row per order and, after it, one row per nested item.
   * `ok` is false when an `int()` raised, which ends the extraction.
   */
  method OrderRows(raw: seq<Json>) returns (orders: seq<Order>, items: seq<OrderItem>, ok: bool)
    ensures ok <==> QuantitiesOk(raw)
    ensures ok ==> orders == Map(raw, OrderRow) && items == Concat(Map(raw, ItemRows))
  {
    orders, items := [], [];
    for i := 0 to |raw|
      invariant All(raw[..i], ItemsOk)
      invariant orders == Map(raw[..i], OrderRow) && items == Concat(Map(raw[..i], ItemRows))
    {
      var p := raw[i];
      var rows, fine := ItemRowsOf(p);
      if !fine {
        AllMembers(raw, ItemsOk);
        return [], [], false;
      }
      AllPrefixSnoc(raw, ItemsOk, i);
      MapPrefixSnoc(raw, OrderRow, i);
      ConcatMapSnoc(raw, ItemRows, i);
      orders := orders + [OrderRow(p)];
      items := items + rows;
    }
    assert raw[..|raw|] == raw;
    ok := true;
  }

  /** The inner loop over the nested `itens` of order `p`; `ok` is false when an `int()` raised. */
  method ItemRowsOf(p: Json) returns (rows: seq<OrderItem>, ok: bool)
    ensures ok <==> ItemsOk(p)
    ensures ok ==> rows == ItemRows(p)
  {
    var its := OrderItems(p);
    rows := [];
    for j := 0 to |its|
      invariant All(its[..j], QuantityOk)
      invariant rows == Map(its[..j], ItemOf(p))
    {
      if PyInt(GetOr(its[j], "quantidade", JInt(1))).None? {
        AllMembers(its, QuantityOk);
        return [], false;
      }
      AllPrefixSnoc(its, QuantityOk, j);
      MapPrefixSnoc(its, ItemOf(p), j);
      rows := rows + [ItemRow(p, its[j])];
    }
    assert its[..|its|] == its;
    ok := true;
  }

  /** The tours loop of `extract`; `ok` is false when `int(t.get("id"))` raised. */
  method TourRows(raw: seq<Json>) returns (tours: seq<Tour>, ok: bool)
    ensures ok <==> TourIdsOk(raw)
    ensures ok ==> tours == Map(raw, TourRow)
  {
    tours := [];
    for i := 0 to |raw|
      invariant All(raw[..i], TourIdOk)
      invariant tours == Map(raw[..i], TourRow)
    {
      if PyInt(At(raw[i], "id")).None? {
        AllMembers(raw, TourIdOk);
        return [], false;
      }
      AllPrefixSnoc(raw, TourIdOk, i);
      MapPrefixSnoc(raw, TourRow, i);
      tours := tours + [TourRow(raw[i])];
    }
    assert raw[..|raw|] == raw;
    ok := true;
  }

  /** In tables that came back, every `quantidade` and every tour `id` is the integer `int()` made of the record's value. */
  lemma IntCells(raw: seq<Json>, tours: seq<Json>)
    requires QuantitiesOk(raw) && TourIdsOk(tours)
    ensures forall i, j :: 0 <= i < |raw| && 0 <= j < |OrderItems(raw[i])| ==>
      var cell := ItemRows(raw[i])[j].quantidade;
      cell.JInt? && PyInt(GetOr(OrderItems(raw[i])[j], "quantidade", JInt(1))) == Some(cell.i)
    ensures forall i :: 0 <= i < |tours| ==>
      var cell := Map(tours, TourRow)[i].id;
      cell.JInt? && PyInt(At(tours[i], "id")) == Some(cell.i)
  {
    AllMembers(raw, ItemsOk);
    AllMembers(tours, TourIdOk);
    forall i, j | 0 <= i < |raw| && 0 <= j < |OrderItems(raw[i])|
      ensures var cell := ItemRows(raw[i])[j].quantidade;
        cell.JInt? && PyInt(GetOr(OrderItems(raw[i])[j], "quantidade", JInt(1))) == Some(cell.i)
    {
      assert ItemsOk(raw[i]);
      AllMembers(OrderItems(raw[i]), QuantityOk);
    }
    forall i | 0 <= i < |tours|
      ensures var cell := Map(tours, TourRow)[i].id; cell.JInt? && PyInt(At(tours[i], "id")) == Some(cell.i)
    {
      assert TourIdOk(tours[i]);
    }
  }

  /** A null `quantidade` and a tour without `id` make `int()` raise: `int(None)`. */
  lemma NullIntsRaise()
    ensures !QuantitiesOk([JObj([Field("itens", JList([JObj([Field("quantidade", JNull)])]))])])
    ensures !TourIdsOk([JObj([Field("nome", JStr("x"))])])
  {
    var item := JObj([Field("quantidade", JNull)]);
    var order := JObj([Field("itens", JList([item]))]);
    assert Lookup(item.fields, "quantidade") == Some(JNull);
    assert Lookup(order.fields, "itens") == Some(JList([item]));
    assert OrderItems(order)[0] == item && !QuantityOk(item);
    AllMembers([order], ItemsOk);
    var tour := JObj([Field("nome", JStr("x"))]);
    assert "nome" != "id";
    assert Lookup(tour.fields, "id") == None;
    AllMembers([tour], TourIdOk);
  }

  /** An item row names its order: `pedido_id` is the order row's `id`; a missing quantity is 1. */
  lemma ItemRowOfOrder(p: Json, item: Json)
    ensures ItemRow(p, item).pedidoId == OrderRow(p).id
    ensures !Has(item, "quantidade") ==> ItemRow(p, item).quantidade == JInt(1)
  {
  }

  /**
   * Every order gives one order row, and every item row belongs to one of the orders: its
   * `pedido_id` is that order row's `id`.
   */
  lemma {:induction false} OrderItemsLinked(raw: seq<Json>)
    ensures |Map(raw, OrderRow)| == |raw|
    ensures var items := Concat(Map(raw, ItemRows));
      forall j :: 0 <= j < |items| ==>
        exists i :: 0 <= i < |raw| && items[j].pedidoId == Map(raw, OrderRow)[i].id
  {
    var xss: seq<seq<OrderItem>> := Map(raw, ItemRows);
    forall j | 0 <= j < |Concat(xss)|
      ensures exists i :: 0 <= i < |raw| && Concat(xss)[j].pedidoId == Map(raw, OrderRow)[i].id
    {
      ConcatMember(xss, j);
      var i: int, k: int :| 0 <= i < |xss| && 0 <= k < |xss[i]| && Concat(xss)[j] == xss[i][k];
      assert xss[i] == ItemRows(raw[i]);
      assert xss[i][k] == ItemRow(raw[i], OrderItems(raw[i])[k]);
      assert Concat(xss)[j].pedidoId == Map(raw, OrderRow)[i].id;
    }
  }

  /** The number of item rows is the number of nested items over all orders. */
  lemma OrderItemsCount(raw: seq<Json>)
    ensures |Concat(Map(raw, ItemRows))| == SumLengths(Map(raw, ItemRows))
    ensures forall i :: 0 <= i < |raw| ==> |Map(raw, ItemRows)[i]| == |OrderItems(raw[i])|
  {
    ConcatLength(Map(raw, ItemRows));
  }

  /** `ativo` is 1 exactly when the record's own flag is truthy, and 0 otherwise, in all three tables. */
  lemma ActiveFlags(t: Json)
    ensures TourRow(t).ativo == 1 <==> Truthy(At(t, "ativo"))
    ensures ComboRow(t).ativo == 1 <==> Truthy(At(t, "ativo"))
    ensures CouponRow(t).ativo == 1 <==> Truthy(At(t, "active"))
    ensures TourRow(t).ativo in {0, 1} && ComboRow(t).ativo in {0, 1} && CouponRow(t).ativo in {0, 1}
  {
  }
}
