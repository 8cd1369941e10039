/**
 * The HubSpot connector: the property listing, the map from deal stage ids to their labels, and
 * the cursor loops over deals (enriched with their stage) and contacts. SDK calls are inputs: a
 * listing or page that the SDK call raised on is `None`.
 */
module HubSpot {
  import opened Json
  import opened Http
  import opened Seqs

  /** Records asked for per page. */
  const Limit := 100

  // ---------------------------------------------------------------------------------------------
  // Properties and stages

  /** A property definition of the properties API; only its name is read. */
  datatype Property = Property(name: string)

  /** `_get_all_properties`: the names of every property, or `[]` when the listing raised. */
  function AllProperties(listing: Option<seq<Property>>): (names: seq<string>)
    ensures listing.None? ==> names == []
    ensures listing.Some? ==> |names| == |listing.value|
    ensures listing.Some? ==> forall i :: 0 <= i < |names| ==> names[i] == listing.value[i].name
  {
    if listing.None? then [] else Map(listing.value, (p: Property) => p.name)
  }

  /** A pipeline stage: its id, its label and the `probability` attribute of its metadata, if it has one. */
  datatype Stage = Stage(id: string, stageLabel: Json, probability: Option<Json>)

  datatype Pipeline = Pipeline(pipelineLabel: Json, stages: seq<Stage>)

  /** What the mapping holds for a stage id. */
  datatype StageInfo = StageInfo(stageLabel: Json, pipelineName: Json, probability: Json)

  type StageMap = map<string, StageInfo>

  /** The entry of `stage` of `p`: `getattr(stage.metadata, 'probability', 0)` defaults to 0. */
  function Info(p: Pipeline, s: Stage): StageInfo {
    StageInfo(s.stageLabel, p.pipelineLabel, if s.probability.Some? then s.probability.value else JInt(0))
  }

  /** One assignment `stage_mapping[stage.id] = ...`. */
  datatype Entry = Entry(id: string, info: StageInfo)

  function EntryOf(p: Pipeline): Stage -> Entry {
    (s: Stage) => Entry(s.id, Info(p, s))
  }

  /** The assignments of the nested loop, in the order the loops make them. */
  function Entries(ps: seq<Pipeline>): seq<Entry>
    decreases |ps|
  {
    if ps == [] then [] else Entries(ps[..|ps| - 1]) + Map(ps[|ps| - 1].stages, EntryOf(ps[|ps| - 1]))
  }

  /** The dict left by a run of assignments. */
  function MapOf(es: seq<Entry>): StageMap
    decreases |es|
  {
    if es == [] then map[] else MapOf(es[..|es| - 1])[es[|es| - 1].id := es[|es| - 1].info]
  }

  /** `_create_stage_mapping()`: `{}` when the pipelines listing raised. */
  function StageMapping(pipelines: Option<seq<Pipeline>>): StageMap {
    if pipelines.None? then map[] else MapOf(Entries(pipelines.value))
  }

  lemma MapOfSnoc(es: seq<Entry>, e: Entry)
    ensures MapOf(es + [e]) == MapOf(es)[e.id := e.info]
  {
    assert (es + [e])[..|es|] == es;
  }

  /** The mapping has exactly the ids of the stages assigned. */
  lemma {:induction false} MapOfKeys(es: seq<Entry>)
    ensures MapOf(es).Keys == set i | 0 <= i < |es| :: es[i].id
    decreases |es|
  {
    if es != [] {
      var n := |es| - 1;
      MapOfKeys(es[..n]);
      assert forall i :: 0 <= i < n ==> es[..n][i] == es[i];
      assert (set i | 0 <= i < |es| :: es[i].id) == (set i | 0 <= i < n :: es[..n][i].id) + {es[n].id};
    }
  }

  /** The last assignment to an id wins: a stage id seen again overwrites what was stored for it. */
  lemma {:induction false} MapOfLast(es: seq<Entry>, i: int)
    requires 0 <= i < |es|
    requires forall j :: i < j < |es| ==> es[j].id != es[i].id
    ensures es[i].id in MapOf(es) && MapOf(es)[es[i].id] == es[i].info
    decreases |es|
  {
    var n := |es| - 1;
    if i < n {
      assert forall j :: i < j < n ==> es[..n][j] == es[j];
      MapOfLast(es[..n], i);
      assert es[..n][i] == es[i];
    }
  }

  /**
   * A stage of the last pipeline listed is stored with that pipeline's label, whatever earlier
   * pipelines held under the same id, unless a later stage of the same pipeline reuses the id.
   */
  lemma LaterPipelineWins(ps: seq<Pipeline>, p: Pipeline, k: int)
    requires 0 <= k < |p.stages|
    requires forall j :: k < j < |p.stages| ==> p.stages[j].id != p.stages[k].id
    ensures var m := StageMapping(Some(ps + [p]));
      p.stages[k].id in m && m[p.stages[k].id] == Info(p, p.stages[k])
  {
    var qs := ps + [p];
    assert qs[..|qs| - 1] == ps;
    var a, b := Entries(ps), Map(p.stages, EntryOf(p));
    var es := a + b;
    assert Entries(qs) == es;
    forall j | |a| + k < j < |es| ensures es[j].id != es[|a| + k].id {
      assert es[j] == b[j - |a|];
    }
    MapOfLast(es, |a| + k);
  }

  /** `_create_stage_mapping`'s nested loop over pipelines and their stages. */
  method CreateStageMapping(pipelines: Option<seq<Pipeline>>) returns (m: StageMap)
    ensures m == StageMapping(pipelines)
    ensures pipelines.None? ==> m == map[]
  {
    if pipelines.None? {
      return map[];
    }
    var ps := pipelines.value;
    m := map[];
    for i := 0 to |ps|
      invariant m == MapOf(Entries(ps[..i]))
    {
      var p := ps[i];
      var e := Entries(ps[..i]);
      var b := Map(p.stages, EntryOf(p));
      assert ps[..i + 1][..i] == ps[..i];
      assert Entries(ps[..i + 1]) == e + b;
      assert b[..0] == [] && e + b[..0] == e;
      for j := 0 to |p.stages|
        invariant m == MapOf(e + b[..j])
      {
        var s := p.stages[j];
        assert e + b[..j + 1] == (e + b[..j]) + [Entry(s.id, Info(p, s))];
        MapOfSnoc(e + b[..j], Entry(s.id, Info(p, s)));
        m := m[s.id := StageInfo(s.stageLabel, p.pipelineLabel, if s.probability.Some? then s.probability.value else JInt(0))];
      }
      assert b[..|p.stages|] == b;
    }
    assert ps[..|ps|] == ps;
  }

  // ---------------------------------------------------------------------------------------------
  // Deals and contacts

  /** A deal or contact of a page: its id and its `properties` dict. */
  datatype Record = Record(id: string, properties: seq<Field>)

  /**
   * The `paging` of a page: absent, present without a `next` (reading `.next.after` then raises
   * inside the `try`), or holding the next cursor.
   */
  datatype Paging = NoPaging | NoNext | Next(after: Json)

  datatype Page = Page(results: seq<Record>, paging: Paging)

  /** The search filter `Filter(property_name, operator, value)`. */
  datatype Criterion = Criterion(propertyName: string, operator: string, value: string)

  /** A call of the loop: the search API with its filter, or the plain listing; both send `after`. */
  datatype Request =
    | Search(filter: Criterion, properties: seq<string>, limit: int, after: Json)
    | Listing(properties: seq<string>, limit: int, after: Json)

  /** The request `extract_deals` makes with cursor `after`: a search when `start_date` is truthy. */
  function DealRequests(startDate: Option<string>, properties: seq<string>): Json -> Request {
    (after: Json) =>
      if startDate.Some? && startDate.value != "" then
        Search(Criterion("createdate", "GTE", startDate.value + "T00:00:00.000Z"), properties, Limit, after)
      else Listing(properties, Limit, after)
  }

  /** The request `extract_contacts` makes with cursor `after`. */
  function ContactRequests(properties: seq<string>): Json -> Request {
    (after: Json) => Listing(properties, Limit, after)
  }

  /** With a start date every deal request searches from that day's midnight (UTC); without one none does. */
  lemma DealFilter(startDate: Option<string>, properties: seq<string>, after: Json)
    ensures var q := DealRequests(startDate, properties)(after);
      && q.properties == properties && q.limit == 100 && q.after == after
      && (q.Search? <==> startDate.Some? && startDate.value != "")
      && (q.Search? ==> q.filter == Criterion("createdate", "GTE", startDate.value + "T00:00:00.000Z"))
  {
  }

  /** The stage id a deal's `dealstage` property names, if it names one. */
  function StageOf(props: seq<Field>): Option<string> {
    match Lookup(props, "dealstage")
    case Some(JStr(id)) => Some(id)
    case _ => None
  }

  /**
   * A deal's row: its properties with `hs_object_id` set to its id and, when its stage is in the
   * mapping, `dealstage_label` and `pipeline_name` set from it.
   */
  function DealRow(d: Record, m: StageMap): seq<Field> {
    var data := SetField(d.properties, "hs_object_id", JStr(d.id));
    var stage := StageOf(data);
    if stage.Some? && stage.value in m then
      SetField(SetField(data, "dealstage_label", m[stage.value].stageLabel), "pipeline_name", m[stage.value].pipelineName)
    else data
  }

  /** A contact's row: its properties with `hs_object_id` set to its id. */
  function ContactRow(c: Record): seq<Field> {
    SetField(c.properties, "hs_object_id", JStr(c.id))
  }

  function DealRows(m: StageMap): Record -> Json {
    (d: Record) => JObj(DealRow(d, m))
  }

  function ContactRows(): Record -> Json {
    (c: Record) => JObj(ContactRow(c))
  }

  /** Every deal row carries the deal's id; every property the deal had keeps its value unless it is one of the three written. */
  lemma DealRowKeeps(d: Record, m: StageMap, k: string)
    ensures Lookup(DealRow(d, m), "hs_object_id") == Some(JStr(d.id))
    ensures k != "hs_object_id" && k != "dealstage_label" && k != "pipeline_name" ==>
      Lookup(DealRow(d, m), k) == Lookup(d.properties, k)
  {
  }

  /** A deal whose stage is mapped gains the stage's label and its pipeline's label. */
  lemma DealRowMapped(d: Record, m: StageMap)
    requires StageOf(d.properties).Some? && StageOf(d.properties).value in m
    ensures var info := m[StageOf(d.properties).value];
      && Lookup(DealRow(d, m), "dealstage_label") == Some(info.stageLabel)
      && Lookup(DealRow(d, m), "pipeline_name") == Some(info.pipelineName)
  {
    assert StageOf(SetField(d.properties, "hs_object_id", JStr(d.id))) == StageOf(d.properties);
  }

  /** A deal whose stage is not mapped gains nothing but its id: its row is its contact-style row. */
  lemma DealRowUnmapped(d: Record, m: StageMap)
    requires StageOf(d.properties).None? || StageOf(d.properties).value !in m
    ensures DealRow(d, m) == ContactRow(d)
    ensures Keys(DealRow(d, m)) == Keys(d.properties) + {"hs_object_id"}
  {
    assert StageOf(SetField(d.properties, "hs_object_id", JStr(d.id))) == StageOf(d.properties);
  }

  /**
   * The cursor loop over page replies in order: a page's rows are kept, then the loop stops when
   * `paging` is absent, stops quietly when reading the cursor or the call raised, and otherwise
   * asks for the next cursor.
   */
  function Run(pages: seq<Option<Page>>, row: Record -> Json, req: Json -> Request, after: Json): Fetched<Request>
    decreases |pages|
  {
    if pages == [] then Fetched([], [], OutOfReplies)
    else
      var q := req(after);
      match pages[0]
      case None => Fetched([], [q], RequestFailed)
      case Some(p) =>
        var got := Map(p.results, row);
        match p.paging
        case NoPaging => Fetched(got, [q], Finished)
        case NoNext => Fetched(got, [q], RequestFailed)
        case Next(a) => Then(got, q, Run(pages[1..], row, req, a))
  }

  /** The loop body: the call's page, turned into rows by the inner `for`. */
  method PageRows(p: Page, row: Record -> Json) returns (got: seq<Json>)
    ensures got == Map(p.results, row)
  {
    got := BuildRows(p.results, row);
  }

  /** The `while True` loop of `extract_deals` and `extract_contacts`, starting from `after = None`. */
  method FetchAll(pages: seq<Option<Page>>, row: Record -> Json, req: Json -> Request) returns (r: Fetched<Request>)
    ensures r == Run(pages, row, req, JNull)
  {
    var items: seq<Json> := [];
    var sent: seq<Request> := [];
    var after := JNull;
    var i := 0;
    ResumeEmpty(Run(pages, row, req, JNull));
    while i < |pages|
      invariant 0 <= i <= |pages|
      invariant Run(pages, row, req, JNull) == Resume(items, sent, Run(pages[i..], row, req, after))
    {
      assert pages[i..][1..] == pages[i + 1..];
      var q := req(after);
      if pages[i].None? {
        return Fetched(items, sent + [q], RequestFailed);
      }
      var p := pages[i].value;
      var got := PageRows(p, row);
      if p.paging.NoPaging? {
        return Fetched(items + got, sent + [q], Finished);
      }
      if p.paging.NoNext? {
        return Fetched(items + got, sent + [q], RequestFailed);
      }
      ResumeThen(items, sent, got, q, Run(pages[i + 1..], row, req, p.paging.after));
      items, sent := items + got, sent + [q];
      after := p.paging.after;
      i := i + 1;
    }
    assert pages[i..] == [];
    return Fetched(items, sent, OutOfReplies);
  }

  /** A page reply that lets the loop go on with cursor `a`. */
  predicate Continues(page: Option<Page>, a: Json) {
    page.Some? && page.value.paging == Next(a)
  }

  /**
   * The requests: at most one per reply; the first sends `after = None`, every later one the
   * cursor of the page before it.
   */
  lemma {:induction false} RunRequests(pages: seq<Option<Page>>, row: Record -> Json, req: Json -> Request, after: Json)
    ensures var f := Run(pages, row, req, after);
      && |f.requests| <= |pages|
      && (pages != [] ==> f.requests != [] && f.requests[0] == req(after))
      && (forall k :: 0 <= k < |f.requests| - 1 ==>
            pages[k].Some? && pages[k].value.paging.Next? && f.requests[k + 1] == req(pages[k].value.paging.after))
    decreases |pages|
  {
    if pages != [] && pages[0].Some? && pages[0].value.paging.Next? {
      var a := pages[0].value.paging.after;
      RunRequests(pages[1..], row, req, a);
      var f, g := Run(pages, row, req, after), Run(pages[1..], row, req, a);
      assert f == Then(Map(pages[0].value.results, row), req(after), g);
      forall k | 0 <= k < |f.requests| - 1
        ensures pages[k].Some? && pages[k].value.paging.Next? && f.requests[k + 1] == req(pages[k].value.paging.after)
      {
        if k > 0 {
          assert f.requests[k + 1] == g.requests[k];
          assert pages[k] == pages[1..][k - 1];
        }
      }
    }
  }

  /**
   * How the loop ends: `Finished` at a page without `paging`, a quiet stop at a call that raised
   * or a `paging` without `next`, and the end of the supply only when every page so far went on.
   */
  lemma {:induction false} RunStop(pages: seq<Option<Page>>, row: Record -> Json, req: Json -> Request, after: Json)
    ensures var f := Run(pages, row, req, after); var n := |f.requests|;
      && n <= |pages| && !f.stop.Crashed?
      && (f.stop.OutOfReplies? <==> n == |pages| && forall k :: 0 <= k < n ==> pages[k].Some? && pages[k].value.paging.Next?)
      && (f.stop.Finished? ==> n > 0 && pages[n - 1].Some? && pages[n - 1].value.paging.NoPaging?)
      && (f.stop.RequestFailed? ==> n > 0 && (pages[n - 1].None? || pages[n - 1].value.paging.NoNext?))
    decreases |pages|
  {
    if pages != [] && pages[0].Some? && pages[0].value.paging.Next? {
      var a := pages[0].value.paging.after;
      RunStop(pages[1..], row, req, a);
      var f, g := Run(pages, row, req, after), Run(pages[1..], row, req, a);
      assert f == Then(Map(pages[0].value.results, row), req(after), g);
      assert forall k :: 1 <= k < |f.requests| ==> pages[k] == pages[1..][k - 1];
    }
  }

  /** The rows of a page reply; none for a call that raised. */
  function PageOf(row: Record -> Json): Option<Page> -> seq<Json> {
    (page: Option<Page>) => if page.Some? then Map(page.value.results, row) else []
  }

  /**
   * The rows collected are those of every page answered, joined in request order: a call that
   * raises, or a missing cursor, ends the loop keeping everything collected before it.
   */
  lemma {:induction false} RunItems(pages: seq<Option<Page>>, row: Record -> Json, req: Json -> Request, after: Json)
    ensures var f := Run(pages, row, req, after);
      |f.requests| <= |pages| && f.items == PagesOf(pages, |f.requests|, PageOf(row))
    decreases |pages|
  {
    var page := PageOf(row);
    var f := Run(pages, row, req, after);
    if pages == [] {
      assert pages[..0] == [];
    } else if pages[0].Some? && pages[0].value.paging.Next? {
      var a := pages[0].value.paging.after;
      RunItems(pages[1..], row, req, a);
      var g := Run(pages[1..], row, req, a);
      assert f == Then(page(pages[0]), req(after), g);
      PagesOfCons(pages, |f.requests|, page);
    } else {
      assert |f.requests| == 1 && f.items == page(pages[0]) + [];
      PagesOfCons(pages, 1, page);
      assert PagesOf(pages[1..], 0, page) == [];
    }
  }

  /** `extract_deals(start_date)`: the properties, the stage mapping, then the cursor loop. */
  method ExtractDeals(startDate: Option<string>, propertyListing: Option<seq<Property>>,
                      pipelines: Option<seq<Pipeline>>, pages: seq<Option<Page>>)
    returns (deals: Fetched<Request>)
    ensures deals == Run(pages, DealRows(StageMapping(pipelines)),
      DealRequests(startDate, AllProperties(propertyListing)), JNull)
  {
    var properties := AllProperties(propertyListing);
    var mapping := CreateStageMapping(pipelines);
    deals := FetchAll(pages, DealRows(mapping), DealRequests(startDate, properties));
  }

  /** `extract_contacts()`: the properties, then the cursor loop over the plain listing. */
  method ExtractContacts(propertyListing: Option<seq<Property>>, pages: seq<Option<Page>>)
    returns (contacts: Fetched<Request>)
    ensures contacts == Run(pages, ContactRows(), ContactRequests(AllProperties(propertyListing)), JNull)
  {
    var properties := AllProperties(propertyListing);
    contacts := FetchAll(pages, ContactRows(), ContactRequests(properties));
  }

  /** `extract_all(start_date)`: the deals table, then the contacts table. */
  method ExtractAll(startDate: Option<string>, dealProperties: Option<seq<Property>>, pipelines: Option<seq<Pipeline>>,
                    dealPages: seq<Option<Page>>, contactProperties: Option<seq<Property>>, contactPages: seq<Option<Page>>)
    returns (deals: seq<Json>, contacts: seq<Json>)
    ensures deals == Run(dealPages, DealRows(StageMapping(pipelines)),
      DealRequests(startDate, AllProperties(dealProperties)), JNull).items
    ensures contacts == Run(contactPages, ContactRows(), ContactRequests(AllProperties(contactProperties)), JNull).items
  {
    var d := ExtractDeals(startDate, dealProperties, pipelines, dealPages);
    var c := ExtractContacts(contactProperties, contactPages);
    deals, contacts := d.items, c.items;
  }
}
