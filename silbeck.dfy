/**
 * The Silbeck connector: one GET per table, whose reply is either the list of records itself or
 * a dict holding it under `data` or `reservas`, and the rows of the reservations and customers
 * tables with their field fallbacks.
 */
module Silbeck {
  import opened Json
  import opened Http
  import opened Seqs
  import opened Text
  import opened Dates

  const BaseUrl := "https://api.silbeck.com.br/v1"

  /** `f"{base_url}/{endpoint.strip('/')}"`. */
  function Url(endpoint: string): (u: string)
    ensures |u| >= |BaseUrl| + 1 && u[..|BaseUrl| + 1] == BaseUrl + "/"
    ensures var e := u[|BaseUrl| + 1..]; e == [] || (e[0] != '/' && e[|e| - 1] != '/')
  {
    var e := StripChar(endpoint, '/');
    var u := BaseUrl + "/" + e;
    assert u[|BaseUrl| + 1..] == e;
    u
  }

  /** Slashes around the endpoint make no difference to the URL. */
  lemma UrlSlashes(e: string)
    requires e == [] || (e[0] != '/' && e[|e| - 1] != '/')
    ensures Url(e) == Url("/" + e) == Url(e + "/") == BaseUrl + "/" + e
  {
    assert ("/" + e)[1..] == e;
    if e == [] {
      assert e + "/" == "/" && "/"[1..] == [];
    } else {
      assert (e + "/")[..|e|] == e;
    }
  }

  /** A GET of `_fetch_data`: the URL and the query parameters (the bearer token is not modelled). */
  datatype Request = Request(url: string, params: seq<Field>)

  /**
   * The records `_fetch_data` returns for one reply. A 401, a failed request and a body that is
   * neither a list nor a dict (whose `.get` raises inside the `try`) all give `[]`.
   */
  function FetchData(r: Reply): (v: Json)
    ensures Failed(r) ==> v == JList([])
    ensures !Failed(r) && r.body.JList? ==> v == r.body
    ensures !Failed(r) && !r.body.JList? && !r.body.JObj? ==> v == JList([])
  {
    if r.Raised? || r.status == 401 || RaisesForStatus(r.status) then JList([])
    else if r.body.JList? then r.body
    else if r.body.JObj? then GetOr(r.body, "data", GetOr(r.body, "reservas", JList([])))
    else JList([])
  }

  /**
   * For a dict body the `data` value is taken whenever the key is present, whatever the value;
   * `reservas` only when `data` is absent; `[]` when neither is.
   */
  lemma DictBody(r: Reply)
    requires r.Reply? && !RaisesForStatus(r.status) && r.body.JObj?
    ensures Has(r.body, "data") ==> FetchData(r) == At(r.body, "data")
    ensures !Has(r.body, "data") && Has(r.body, "reservas") ==> FetchData(r) == At(r.body, "reservas")
    ensures !Has(r.body, "data") && !Has(r.body, "reservas") ==> FetchData(r) == JList([])
  {
  }

  // ---------------------------------------------------------------------------------------------
  // Rows

  /** A `silbeck_reservas` row. */
  datatype Reserva = Reserva(id: string, codigoReserva: Json, dataReserva: Json, status: Json,
    valorTotal: Json, clienteNome: Json, clienteEmail: Json, vendedor: Json, origem: Json)

  /** A `silbeck_clientes` row. */
  datatype Cliente = Cliente(id: string, nome: Json, email: Json, cpfCnpj: Json, telefone: Json,
    cidade: Json, estado: Json)

  /** The two tables `extract` returns. */
  datatype Tables = Tables(reservas: seq<Reserva>, clientes: seq<Cliente>)

  /** A customer field of a reservation: from the nested `cliente` dict when it is one, else the flat field. */
  function ClienteField(r: Json, nested: string, flat: string): Json {
    if At(r, "cliente").JObj? then At(GetOr(r, "cliente", JObj([])), nested) else At(r, flat)
  }

  function ReservaRow(r: Json): Reserva {
    Reserva(PyStr(At(r, "id")), Or(At(r, "codigo"), At(r, "numero")),
      Or(At(r, "data_reserva"), At(r, "created_at")), At(r, "status"),
      ToFloat(Or(At(r, "valor_total"), JInt(0))),
      ClienteField(r, "nome", "cliente_nome"), ClienteField(r, "email", "cliente_email"),
      At(r, "vendedor"), At(r, "origem"))
  }

  function ClienteRow(c: Json): Cliente {
    Cliente(PyStr(At(c, "id")), At(c, "nome"), At(c, "email"), Or(At(c, "cpf"), At(c, "cnpj")),
      At(c, "telefone"), At(c, "cidade"), At(c, "estado"))
  }

  /**
   * The reservation code is `codigo` unless that is falsy, then `numero`; the date is
   * `data_reserva` unless falsy, then `created_at`.
   */
  lemma ReservaFallbacks(r: Json)
    ensures Truthy(At(r, "codigo")) ==> ReservaRow(r).codigoReserva == At(r, "codigo")
    ensures !Truthy(At(r, "codigo")) ==> ReservaRow(r).codigoReserva == At(r, "numero")
    ensures Truthy(At(r, "data_reserva")) ==> ReservaRow(r).dataReserva == At(r, "data_reserva")
    ensures !Truthy(At(r, "data_reserva")) ==> ReservaRow(r).dataReserva == At(r, "created_at")
  {
  }

  /** The total is `float` of `valor_total`, and a falsy total is written as 0.0. */
  lemma ReservaTotal(r: Json)
    ensures Truthy(At(r, "valor_total")) ==> ReservaRow(r).valorTotal == ToFloat(At(r, "valor_total"))
    ensures !Truthy(At(r, "valor_total")) ==> ReservaRow(r).valorTotal == JFloat("0.0")
  {
    assert IntToString(0) == "0";
  }

  /** The customer's name and e-mail come from the nested dict when `cliente` is one, else from the flat fields. */
  lemma ClienteSource(r: Json)
    ensures At(r, "cliente").JObj? ==>
      ReservaRow(r).clienteNome == At(At(r, "cliente"), "nome") && ReservaRow(r).clienteEmail == At(At(r, "cliente"), "email")
    ensures !At(r, "cliente").JObj? ==>
      ReservaRow(r).clienteNome == At(r, "cliente_nome") && ReservaRow(r).clienteEmail == At(r, "cliente_email")
  {
  }

  /** `cpf_cnpj` is `cpf` unless that is falsy, then `cnpj`; ids are `str` of the value, `"None"` when absent. */
  lemma ClienteFallbacks(c: Json, r: Json)
    ensures Truthy(At(c, "cpf")) ==> ClienteRow(c).cpfCnpj == At(c, "cpf")
    ensures !Truthy(At(c, "cpf")) ==> ClienteRow(c).cpfCnpj == At(c, "cnpj")
    ensures !Has(c, "id") ==> ClienteRow(c).id == "None"
    ensures !Has(r, "id") ==> ReservaRow(r).id == "None"
    ensures ClienteRow(c).id == PyStr(At(c, "id")) && ReservaRow(r).id == PyStr(At(r, "id"))
  {
  }

  /** The period filter both calls send, as `%Y-%m-%d`. */
  function Params(first: string, last: string): seq<Field> {
    [Field("data_inicio", JStr(first)), Field("data_fim", JStr(last))]
  }

  /** The two requests of `extract`, in order: reservations, then customers, with the one filter. */
  function Requests(start: DateTime, stop: DateTime): seq<Request> {
    var p := Params(IsoDate(start), IsoDate(stop));
    [Request(Url("reservas"), p), Request(Url("clientes"), p)]
  }

  /** Both requests go to their endpoint under the base URL, with the same filter. */
  lemma RequestUrls(start: DateTime, stop: DateTime)
    ensures var qs := Requests(start, stop);
      && |qs| == 2 && qs[0].url == BaseUrl + "/" + "reservas" && qs[1].url == BaseUrl + "/" + "clientes"
      && qs[0].params == qs[1].params == Params(IsoDate(start), IsoDate(stop))
  {
    assert StripChar("reservas", '/') == "reservas";
    assert StripChar("clientes", '/') == "clientes";
  }

  /** The filter holds the period's first and last day, and nothing else. */
  lemma ParamsSent(first: string, last: string)
    ensures var p := Params(first, last);
      && |p| == 2
      && Lookup(p, "data_inicio") == Some(JStr(first))
      && Lookup(p, "data_fim") == Some(JStr(last))
  {
    var p := Params(first, last);
    assert "data_inicio"[5] != "data_fim"[5];
    assert p[..1] == [p[0]];
  }

  /**
   * `extract(date_start, date_stop)`: one row per record of each listing, in order. Every
   * failure inside `_fetch_data` is turned into an empty listing there. The listing loops run
   * outside that `try`; they visit the elements of a list and read any other `data` as empty,
   * where the source would raise on a dict, a string or null.
   */
  method Extract(reservaReply: Reply, clienteReply: Reply) returns (tables: Tables)
    ensures |tables.reservas| == |Elems(FetchData(reservaReply))|
    ensures |tables.clientes| == |Elems(FetchData(clienteReply))|
    ensures forall i :: 0 <= i < |tables.reservas| ==> tables.reservas[i] == ReservaRow(Elems(FetchData(reservaReply))[i])
    ensures forall i :: 0 <= i < |tables.clientes| ==> tables.clientes[i] == ClienteRow(Elems(FetchData(clienteReply))[i])
  {
    var reservas := BuildRows(Elems(FetchData(reservaReply)), ReservaRow);
    var clientes := BuildRows(Elems(FetchData(clienteReply)), ClienteRow);
    tables := Tables(reservas, clientes);
  }
}
