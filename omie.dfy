/**
 * The Omie connector: every call is a POST of the call name, the application key and secret and
 * a one-element `param` list; listings page by page number against the page count each reply
 * reports, up to 500 pages; the rows of the clients and sales-orders tables.
 */
module Omie {
  import opened Json
  import opened Http
  import opened Seqs
  import opened Dates
  import opened Text

  const BaseUrl := "https://app.omie.com.br/api/v1"

  /** Records asked for per page. */
  const PerPage := 100

  /** The safety ceiling on page requests. */
  const MaxPages := 500

  /** The application key and secret the connector reads from its settings. */
  datatype App = App(key: Json, secret: Json)

  /** A POST of `_call_api`: the URL and the JSON payload. */
  datatype Call = Call(url: string, payload: seq<Field>)

  /** `f"{base_url}/{endpoint.strip('/')}/"`. */
  function Url(endpoint: string): (u: string)
    ensures |u| > |BaseUrl| + 1 && u[..|BaseUrl| + 1] == BaseUrl + "/" && u[|u| - 1] == '/'
    ensures var e := u[|BaseUrl| + 1..|u| - 1]; e == [] || (e[0] != '/' && e[|e| - 1] != '/')
  {
    var e := StripChar(endpoint, '/');
    var u := BaseUrl + "/" + e + "/";
    assert u[|BaseUrl| + 1..|u| - 1] == e;
    u
  }

  /** `_call_api(endpoint, call, param)`: the request it posts. */
  function CallFor(app: App, endpoint: string, call: string, param: Json): Call {
    Call(Url(endpoint), [Field("call", JStr(call)), Field("app_key", app.key),
      Field("app_secret", app.secret), Field("param", param)])
  }

  /** The payload carries the call name, both application credentials and the parameters, and nothing else. */
  lemma PayloadFields(app: App, endpoint: string, call: string, param: Json)
    ensures var p := CallFor(app, endpoint, call, param).payload;
      && |p| == 4
      && Lookup(p, "call") == Some(JStr(call))
      && Lookup(p, "app_key") == Some(app.key)
      && Lookup(p, "app_secret") == Some(app.secret)
      && Lookup(p, "param") == Some(param)
  {
    var p := CallFor(app, endpoint, call, param).payload;
    assert "call"[0] != "app_key"[0] && "call"[0] != "app_secret"[0] && "call"[0] != "param"[0];
    assert "app_key"[4] != "app_secret"[4] && "param"[0] != "app_key"[0] && "param"[0] != "app_secret"[0];
    assert p[..3][..2][..1] == [p[0]] && p[..3][..2] == [p[0], p[1]] && p[..3] == [p[0], p[1], p[2]];
  }

  /** Slashes around the endpoint make no difference to the URL. */
  lemma UrlSlashes(e: string)
    requires e == [] || (e[0] != '/' && e[|e| - 1] != '/')
    ensures Url(e) == Url("/" + e) == Url(e + "/") == BaseUrl + "/" + e + "/"
  {
    assert ("/" + e)[1..] == e;
    if e == [] {
      assert e + "/" == "/" && "/"[1..] == [];
    } else {
      assert (e + "/")[..|e|] == e;
    }
  }

  /** The pagination entries `_fetch_paginated` starts every request from. */
  function Defaults(page: int): seq<Field> {
    [Field("pagina", JInt(page)), Field("registros_por_pagina", JInt(PerPage)),
     Field("apenas_importado_api", JStr("N"))]
  }

  /** The `param` dict for `page`: the defaults, updated with the filters when there are any. */
  function PageParam(page: int, filter: seq<Field>): seq<Field> {
    if filter != [] then Update(Defaults(page), filter) else Defaults(page)
  }

  /** The three default entries, looked up by name. */
  lemma DefaultFields(page: int)
    ensures var d := Defaults(page);
      && |d| == 3
      && Lookup(d, "pagina") == Some(JInt(page))
      && Lookup(d, "registros_por_pagina") == Some(JInt(PerPage))
      && Lookup(d, "apenas_importado_api") == Some(JStr("N"))
  {
    var d := Defaults(page);
    assert "pagina"[0] != "registros_por_pagina"[0] && "pagina"[0] != "apenas_importado_api"[0];
    assert "registros_por_pagina"[0] != "apenas_importado_api"[0];
    assert d[..2][..1] == [d[0]] && d[..2] == [d[0], d[1]];
  }

  /**
   * A filter entry overrides the default under its name (even `pagina`); every other default is
   * kept, and no other key is sent.
   */
  lemma FilterOverrides(page: int, filter: seq<Field>, k: string)
    ensures Lookup(PageParam(page, filter), k)
      == if k in Keys(filter) then Lookup(filter, k) else Lookup(Defaults(page), k)
  {
    if filter != [] {
      UpdateLookup(Defaults(page), filter, k);
    }
  }

  /** The request for each page: a one-element `param` list holding that page's dict. */
  function Requests(app: App, endpoint: string, call: string, filter: seq<Field>): int -> Call {
    (p: int) => CallFor(app, endpoint, call, JList([JObj(PageParam(p, filter))]))
  }

  /** The listing of a reply is a list held by an entry other than `param`. */
  predicate IsListing(f: Field) {
    f.val.JList? && f.key != "param"
  }

  /** The position of the first listing among a dict's entries, or -1. */
  function FirstListing(fs: seq<Field>): (i: int)
    ensures -1 <= i < |fs|
    ensures i >= 0 ==> IsListing(fs[i])
    ensures forall j :: 0 <= j < |fs| && (i < 0 || j < i) ==> !IsListing(fs[j])
    decreases |fs|
  {
    if fs == [] then -1
    else if IsListing(fs[0]) then 0
    else
      var i := FirstListing(fs[1..]);
      assert forall j :: 1 <= j < |fs| ==> fs[j] == fs[1..][j - 1];
      if i < 0 then -1 else i + 1
  }

  /**
   * The records of a reply body: the list under the first key, in the dict's iteration order,
   * whose value is a list and which is not `param`; none when there is no such key.
   */
  function PageRecords(body: Json): seq<Json> {
    if body.JObj? then
      var its := Items(body.fields);
      var i := FirstListing(its);
      if i < 0 then [] else its[i].val.items
    else []
  }

  /** `data.get("total_de_paginas", 0)`. */
  function TotalPages(body: Json): Json {
    GetOr(body, "total_de_paginas", JInt(0))
  }

  /**
   * The reply to the request for `page`, read the way the loop body reads it: a failed request,
   * or a body that is not a dict (whose `keys()` raises), escapes.
   */
  function Classify(r: Reply, page: int): (s: Step)
    ensures s.Raise? <==> Failed(r) || !r.body.JObj?
    ensures s.Empty? <==> !Failed(r) && r.body.JObj? && PageRecords(r.body) == []
    ensures s.Last? <==> !Failed(r) && PageRecords(r.body) != [] && AtLastPage(page, TotalPages(r.body)) == Some(true)
    ensures s.More? <==> !Failed(r) && PageRecords(r.body) != [] && AtLastPage(page, TotalPages(r.body)) == Some(false)
    ensures s.BadTotal? <==> !Failed(r) && PageRecords(r.body) != [] && AtLastPage(page, TotalPages(r.body)).None?
    ensures !s.Raise? && !s.Empty? ==> s.items == PageRecords(r.body)
  {
    if Failed(r) || !r.body.JObj? then Raise
    else if PageRecords(r.body) == [] then Empty
    else match AtLastPage(page, TotalPages(r.body))
      case None => BadTotal(PageRecords(r.body))
      case Some(true) => Last(PageRecords(r.body))
      case Some(false) => More(PageRecords(r.body))
  }

  /** The step of every page, given the reply to each page's request. */
  function Steps(replies: int -> Reply): int -> Step {
    (p: int) => Classify(replies(p), p)
  }

  /**
   * The loop of `_fetch_paginated` from the request for `page` on. A request that raises
   * escapes; a page without records ends paging; otherwise the page is kept, and paging ends once
   * `page` reaches the reported page count or the next page would pass the ceiling, or escapes
   * when the comparison raises.
   */
  function Run(steps: int -> Step, req: int -> Call, page: int): Fetched<Call>
    decreases MaxPages - page
  {
    var q := req(page);
    match steps(page)
    case Raise => Fetched([], [q], Crashed)
    case Empty => Fetched([], [q], Finished)
    case Last(xs) => Fetched(xs, [q], Finished)
    case BadTotal(xs) => Fetched(xs, [q], Crashed)
    case More(xs) => if page + 1 > MaxPages then Fetched(xs, [q], Finished) else Then(xs, q, Run(steps, req, page + 1))
  }

  /** The `param` dict of one iteration: the defaults, then `param.update(filter_params)` when there are filters. */
  method PageDict(page: int, filter: seq<Field>) returns (param: seq<Field>)
    ensures param == PageParam(page, filter)
  {
    param := Defaults(page);
    if filter != [] {
      param := Update(param, filter);
    }
  }

  /** `_fetch_paginated(endpoint, call, filter_params)` over the replies to its requests. */
  function PageRun(app: App, endpoint: string, call: string, filter: seq<Field>, replies: int -> Reply): Fetched<Call> {
    Run(Steps(replies), Requests(app, endpoint, call, filter), 1)
  }

  /** The inner loop over the reply's keys. */
  method FindRecords(data: Json) returns (items: seq<Json>)
    ensures items == PageRecords(data)
  {
    items := [];
    if !data.JObj? {
      return;
    }
    var its := Items(data.fields);
    var j := 0;
    while j < |its|
      invariant 0 <= j <= |its|
      invariant forall m :: 0 <= m < j ==> !IsListing(its[m])
    {
      if its[j].val.JList? && its[j].key != "param" {
        assert FirstListing(its) == j;
        return its[j].val.items;
      }
      j := j + 1;
    }
  }

  /**
   * `_fetch_paginated`: `replies(p)` answers the request for page `p`. A new `param` dict is
   * built for every page; the filters, when given, are applied on top of the defaults.
   */
  method FetchPaginated(app: App, endpoint: string, call: string, filter: seq<Field>, replies: int -> Reply)
    returns (r: Fetched<Call>)
    ensures r == PageRun(app, endpoint, call, filter, replies)
  {
    var all: seq<Json> := [];
    var sent: seq<Call> := [];
    var page := 1;
    ghost var steps, req := Steps(replies), Requests(app, endpoint, call, filter);
    ResumeEmpty(Run(steps, req, 1));
    while true
      invariant 1 <= page <= MaxPages
      invariant Run(steps, req, 1) == Resume(all, sent, Run(steps, req, page))
      decreases MaxPages - page
    {
      var param := PageDict(page, filter);
      var q := CallFor(app, endpoint, call, JList([JObj(param)]));
      assert q == req(page);
      var reply := replies(page);
      ghost var step := steps(page);
      if reply.Raised? || RaisesForStatus(reply.status) {
        assert step.Raise?;
        return Fetched(all, sent + [q], Crashed);
      }
      var data := reply.body;
      if !data.JObj? {
        // `data.keys()` raises on a body that is not a dict
        assert step.Raise?;
        return Fetched(all, sent + [q], Crashed);
      }
      var items := FindRecords(data);
      if items == [] {
        assert step.Empty?;
        return Fetched(all, sent + [q], Finished);
      }
      var last := AtLastPage(page, GetOr(data, "total_de_paginas", JInt(0)));
      if last.None? {
        assert step == BadTotal(items);
        return Fetched(all + items, sent + [q], Crashed);
      }
      if last.value {
        assert step == Last(items);
        return Fetched(all + items, sent + [q], Finished);
      }
      assert step == More(items);
      if page + 1 > MaxPages {
        return Fetched(all + items, sent + [q], Finished);
      }
      ResumeThen(all, sent, items, q, Run(steps, req, page + 1));
      all, sent := all + items, sent + [q];
      page := page + 1;
    }
  }

  /**
   * The requests ask for consecutive pages from `page`, never past page 500, and paging goes
   * past a page only when that page had records and was not the last reported.
   */
  lemma {:induction false} RunRequests(steps: int -> Step, req: int -> Call, page: int)
    requires page <= MaxPages
    ensures var f := Run(steps, req, page); var n := |f.requests|;
      && 1 <= n <= MaxPages - page + 1
      && (forall k :: 0 <= k < n ==> f.requests[k] == req(page + k))
      && (forall p :: page <= p < page + n - 1 ==> steps(p).More?)
    decreases MaxPages - page
  {
    var f := Run(steps, req, page);
    if steps(page).More? && page + 1 <= MaxPages {
      RunRequests(steps, req, page + 1);
      var g := Run(steps, req, page + 1);
      assert f == Then(steps(page).items, req(page), g);
      assert forall k :: 1 <= k < |f.requests| ==> f.requests[k] == g.requests[k - 1];
    }
  }

  /**
   * How paging ends: `Finished` at a page without records, at the reported last page, or at page
   * 500 with more reported; `Crashed` at a request that raised or a page count that cannot be
   * compared. The loop never runs out of replies: it is bounded.
   */
  lemma {:induction false} RunStop(steps: int -> Step, req: int -> Call, page: int)
    requires page <= MaxPages
    ensures var f := Run(steps, req, page); var p := page + |f.requests| - 1;
      && (f.stop.Finished? || f.stop.Crashed?)
      && (f.stop.Finished? <==> steps(p).Empty? || steps(p).Last? || (steps(p).More? && p == MaxPages))
      && (f.stop.Crashed? <==> steps(p).Raise? || steps(p).BadTotal?)
    decreases MaxPages - page
  {
    if steps(page).More? && page + 1 <= MaxPages {
      RunStop(steps, req, page + 1);
      var f, g := Run(steps, req, page), Run(steps, req, page + 1);
      assert f == Then(steps(page).items, req(page), g);
      assert page + |f.requests| - 1 == page + 1 + |g.requests| - 1;
    }
  }

  /** The records of the pages from `page`, `n` pages long, joined in request order. */
  function Span(steps: int -> Step, page: int, n: nat): seq<Json>
    decreases n
  {
    if n == 0 then [] else StepItems(steps(page)) + Span(steps, page + 1, n - 1)
  }

  /** The records are the pages' listings joined in request order (`all_items.extend`). */
  lemma {:induction false} RunRecords(steps: int -> Step, req: int -> Call, page: int)
    ensures var f := Run(steps, req, page); f.items == Span(steps, page, |f.requests|)
    decreases MaxPages - page
  {
    var f := Run(steps, req, page);
    if steps(page).More? && page + 1 <= MaxPages {
      RunRecords(steps, req, page + 1);
      assert f == Then(steps(page).items, req(page), Run(steps, req, page + 1));
    } else {
      assert Span(steps, page + 1, 0) == [];
    }
  }

  /** A first page with records and no reported page count is the only request. */
  lemma SinglePage(app: App, endpoint: string, call: string, filter: seq<Field>, replies: int -> Reply)
    requires !Failed(replies(1)) && PageRecords(replies(1).body) != []
    requires !Has(replies(1).body, "total_de_paginas")
    ensures PageRun(app, endpoint, call, filter, replies)
      == Fetched(PageRecords(replies(1).body), [Requests(app, endpoint, call, filter)(1)], Finished)
  {
    assert Steps(replies)(1) == Classify(replies(1), 1);
  }

  /** A reply with records and more pages reported than the ceiling allows. */
  predicate Endless(r: Reply) {
    !Failed(r) && PageRecords(r.body) != [] && TotalPages(r.body).JInt? && TotalPages(r.body).i > MaxPages
  }

  /** However many pages are reported, the loop stops after page 500 with the records kept. */
  lemma {:induction false} Ceiling(steps: int -> Step, req: int -> Call, page: int)
    requires 1 <= page <= MaxPages
    requires forall p :: page <= p <= MaxPages ==> steps(p).More?
    ensures var f := Run(steps, req, page); |f.requests| == MaxPages - page + 1 && f.stop.Finished?
    decreases MaxPages - page
  {
    if page < MaxPages {
      Ceiling(steps, req, page + 1);
    }
  }

  /** Replies that all report more than 500 pages give exactly 500 requests and a finished run. */
  lemma CeilingReached(app: App, endpoint: string, call: string, filter: seq<Field>, replies: int -> Reply)
    requires forall p :: 1 <= p <= MaxPages ==> Endless(replies(p))
    ensures var f := PageRun(app, endpoint, call, filter, replies);
      |f.requests| == MaxPages && f.stop.Finished?
  {
    var steps := Steps(replies);
    forall p | 1 <= p <= MaxPages ensures steps(p).More? {
      assert Endless(replies(p));
    }
    Ceiling(steps, Requests(app, endpoint, call, filter), 1);
  }

  /** With every page up to `total` reporting `total` pages, exactly pages `page` to `total` are asked for. */
  lemma {:induction false} UpToTotal(steps: int -> Step, req: int -> Call, page: int, total: int)
    requires 1 <= page <= total <= MaxPages
    requires forall p :: page <= p < total ==> steps(p).More?
    requires steps(total).Last?
    ensures var f := Run(steps, req, page); |f.requests| == total - page + 1 && f.stop.Finished?
    decreases total - page
  {
    if page < total {
      UpToTotal(steps, req, page + 1, total);
    }
  }

  /** A reply with records whose page count is the integer `total`. */
  predicate Reports(r: Reply, total: int) {
    !Failed(r) && PageRecords(r.body) != [] && TotalPages(r.body) == JInt(total)
  }

  /** Replies that all have records and report `total` pages (at most 500) give exactly `total` requests. */
  lemma PagesUpToTotal(app: App, endpoint: string, call: string, filter: seq<Field>, replies: int -> Reply, total: int)
    requires 1 <= total <= MaxPages && forall p :: 1 <= p <= total ==> Reports(replies(p), total)
    ensures var f := PageRun(app, endpoint, call, filter, replies);
      |f.requests| == total && f.stop.Finished?
  {
    var steps := Steps(replies);
    forall p | 1 <= p <= total ensures steps(p) == Classify(replies(p), p) {
    }
    UpToTotal(steps, Requests(app, endpoint, call, filter), 1, total);
  }

  // ---------------------------------------------------------------------------------------------
  // Rows

  /** An `omie_clientes` row: the client record's fields of the same names. */
  datatype Client = Client(
    codigoClienteOmie: Json, codigoClienteIntegracao: Json, razaoSocial: Json, nomeFantasia: Json,
    cnpjCpf: Json, email: Json, telefone1Ddd: Json, telefone1Numero: Json, contato: Json,
    endereco: Json, bairro: Json, cidade: Json, estado: Json, cep: Json)

  /** An `omie_pedidos` row. */
  datatype Order = Order(
    numeroPedido: Json, codigoPedidoOmie: Json, codigoCliente: Json, dataPrevisao: Json,
    etapa: Json, valorTotal: Json, statusPedido: string)

  /** The two tables `extract` returns. */
  datatype Tables = Tables(clients: seq<Client>, orders: seq<Order>)

  function ClientRow(c: Json): Client {
    Client(At(c, "codigo_cliente_omie"), At(c, "codigo_cliente_integracao"), At(c, "razao_social"),
      At(c, "nome_fantasia"), At(c, "cnpj_cpf"), At(c, "email"), At(c, "telefone1_ddd"),
      At(c, "telefone1_numero"), At(c, "contato"), At(c, "endereco"), At(c, "bairro"),
      At(c, "cidade"), At(c, "estado"), At(c, "cep"))
  }

  /** `p.get("infoCadastro", {}).get("cancelado") == "S" and "Cancelado" or "Ativo"`. */
  function Status(p: Json): (s: string)
    ensures s == "Cancelado" <==> At(GetOr(p, "infoCadastro", JObj([])), "cancelado") == JStr("S")
    ensures s == "Cancelado" || s == "Ativo"
  {
    if At(GetOr(p, "infoCadastro", JObj([])), "cancelado") == JStr("S") then "Cancelado" else "Ativo"
  }

  /** An `omie_pedidos` row: the header fields, the float total (0 when absent) and the status. */
  function OrderRow(p: Json): Order {
    var head := GetOr(p, "cabecalho", JObj([]));
    var total := GetOr(p, "total_pedido", JObj([]));
    Order(At(head, "numero_pedido"), At(head, "codigo_pedido_omie"), At(head, "codigo_cliente"),
      At(head, "data_previsao"), At(head, "etapa"),
      ToFloat(GetOr(total, "valor_total_pedido", JInt(0))), Status(p))
  }

  /** The filters of the sales-orders listing for the days `first` to `last` (as `%d/%m/%Y`). */
  function DateFilter(first: string, last: string): seq<Field> {
    [Field("filtrar_por_data_de", JStr(first)), Field("filtrar_por_data_ate", JStr(last))]
  }

  /**
   * Every sales-orders request asks for its page with 100 records per page, and carries both
   * dates of the window.
   */
  lemma OrderFilterSent(first: string, last: string, page: int)
    ensures var ps := PageParam(page, DateFilter(first, last));
      && Lookup(ps, "pagina") == Some(JInt(page))
      && Lookup(ps, "registros_por_pagina") == Some(JInt(PerPage))
      && Lookup(ps, "apenas_importado_api") == Some(JStr("N"))
      && Lookup(ps, "filtrar_por_data_de") == Some(JStr(first))
      && Lookup(ps, "filtrar_por_data_ate") == Some(JStr(last))
  {
    var f := DateFilter(first, last);
    assert "filtrar_por_data_de"[17] != "filtrar_por_data_ate"[17];
    assert f[..1] == [f[0]];
    assert Lookup(f, "filtrar_por_data_de") == Some(JStr(first)) && Lookup(f, "filtrar_por_data_ate") == Some(JStr(last));
    assert "pagina"[0] != "filtrar_por_data_de"[0] && "registros_por_pagina"[0] != "filtrar_por_data_de"[0];
    assert "apenas_importado_api"[0] != "filtrar_por_data_de"[0];
    assert Lookup(f, "pagina").None? && Lookup(f, "registros_por_pagina").None? && Lookup(f, "apenas_importado_api").None?;
    DefaultFields(page);
    FilterOverrides(page, f, "pagina");
    FilterOverrides(page, f, "registros_por_pagina");
    FilterOverrides(page, f, "apenas_importado_api");
    FilterOverrides(page, f, "filtrar_por_data_de");
    FilterOverrides(page, f, "filtrar_por_data_ate");
  }

  /** The order status is `Cancelado` exactly when the record says `cancelado` is `"S"`. */
  lemma StatusOfOrder(p: Json)
    ensures OrderRow(p).statusPedido == "Cancelado" <==> At(GetOr(p, "infoCadastro", JObj([])), "cancelado") == JStr("S")
    ensures OrderRow(p).statusPedido in {"Cancelado", "Ativo"}
    ensures !Has(GetOr(p, "total_pedido", JObj([])), "valor_total_pedido") ==> OrderRow(p).valorTotal == JFloat("0.0")
  {
    assert IntToString(0) == "0";
  }

  /**
   * `extract(date_start, date_stop)`: every client (no filters), then the sales orders of the
   * window. A request that raises escapes the connector, so the tables come back only when
   * both listings finished.
   */
  method Extract(app: App, start: DateTime, stop: DateTime, clientReplies: int -> Reply, orderReplies: int -> Reply)
    returns (tables: Option<Tables>, ended: Stop)
    ensures var fc := PageRun(app, "geral/clientes", "ListarClientes", [], clientReplies);
      var fo := PageRun(app, "produtos/pedido", "ListarPedidosVenda", DateFilter(DmyDate(start), DmyDate(stop)), orderReplies);
      && ended == (if fc.stop.Finished? then fo.stop else fc.stop)
      && (tables.Some? <==> ended.Finished?)
      && (tables.Some? ==> tables.value == Tables(Map(fc.items, ClientRow), Map(fo.items, OrderRow)))
  {
    var filter := DateFilter(DmyDate(start), DmyDate(stop));
    var fc := FetchPaginated(app, "geral/clientes", "ListarClientes", [], clientReplies);
    if !fc.stop.Finished? {
      return None, fc.stop;
    }
    var clients := BuildRows(fc.items, ClientRow);
    var fo := FetchPaginated(app, "produtos/pedido", "ListarPedidosVenda", filter, orderReplies);
    if !fo.stop.Finished? {
      return None, fo.stop;
    }
    var orders := BuildRows(fo.items, OrderRow);
    return Some(Tables(clients, orders)), Finished;
  }
}
