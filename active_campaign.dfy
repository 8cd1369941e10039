/**
 * The ActiveCampaign connector: listings of the v3 API paged by `offset` against the total the
 * API reports, waiting and retrying on rate limits and on exceptions.
 */
module ActiveCampaign {
  import opened Json
  import opened Http
  import opened Seqs

  /** Records asked for per page; the offset advances by this much. */
  const Limit := 100

  /** Seconds slept after an advancing page, after a 429, and after an exception. */
  const Pace: real := 0.25
  const RateWait: real := 60.0
  const ErrorWait: real := 5.0

  /** `f"https://{account_name}.api-us1.com/api/3/{endpoint}"`. */
  function Url(account: string, endpoint: string): string {
    "https://" + account + ".api-us1.com/api/3" + "/" + endpoint
  }

  /** The query parameters of the request at `offset`. */
  function Query(offset: int): seq<Field> {
    [Field("limit", JInt(Limit)), Field("offset", JInt(offset))]
  }

  /**
   * How the body of a 200 reply reads. `BeforeItems`: `data.get` raised (the body is not an
   * object), so nothing was collected. Otherwise the page's items were collected, and `total` is
   * `int(meta.get("total", 0))`, None when reading it raised (`meta` not an object, or a total
   * `int()` refuses).
   */
  datatype Page = BeforeItems | Readable(items: Json, total: Option<int>)

  function ReadBody(data: Json, key: string): (p: Page)
    ensures !data.JObj? <==> p.BeforeItems?
    ensures p.Readable? ==> p.items == GetOr(data, key, JList([]))
    ensures p.Readable? && !Has(data, "meta") ==> p.total == Some(0)
  {
    if !data.JObj? then BeforeItems
    else
      var meta := GetOr(data, "meta", JObj([]));
      var total := if meta.JObj? then PyInt(GetOr(meta, "total", JInt(0))) else None;
      Readable(GetOr(data, key, JList([])), total)
  }

  /** What one reply makes the loop do. */
  datatype Outcome =
    | Stopped                             // a status other than 200 and 429: stop with what was collected
    | Wait(got: seq<Json>, delay: real)   // wait and ask for the same offset again
    | Final(got: seq<Json>)               // the page reached the total, or was empty: stop
    | Advance(got: seq<Json>)             // go on at the next offset

  /**
   * The outcome of the reply to the request at `offset`. Everything inside the `try` that raises
   * (the request, `data.get` on a body that is not an object, `extend` of a value that is not
   * iterable, `int()` of the total) is followed by a 5-second wait and the same offset again;
   * whatever `extend` appended before a raise stays collected.
   */
  function Classify(r: Reply, key: string, offset: int): (o: Outcome)
    ensures o.Stopped? <==> r.Reply? && r.status != 200 && r.status != 429
    ensures r.Raised? ==> o == Wait([], ErrorWait)
    ensures r.Reply? && r.status == 429 ==> o == Wait([], RateWait)
    ensures r.Reply? && r.status == 200 && ReadBody(r.body, key).Readable? && Extended(ReadBody(r.body, key).items).None?
      ==> o == Wait([], ErrorWait)
    ensures o.Advance? <==> (r.Reply? && r.status == 200 && ReadBody(r.body, key).Readable?
      && Extended(ReadBody(r.body, key).items).Some?
      && ReadBody(r.body, key).total.Some? && offset + Limit < ReadBody(r.body, key).total.value
      && Truthy(ReadBody(r.body, key).items))
    ensures o.Advance? || o.Final? ==>
      r.Reply? && ReadBody(r.body, key).Readable? && Extended(ReadBody(r.body, key).items) == Some(o.got)
  {
    if r.Raised? then Wait([], ErrorWait)
    else if r.status == 200 then
      match ReadBody(r.body, key)
      case BeforeItems => Wait([], ErrorWait)
      case Readable(items, total) =>
        match Extended(items)
        case None => Wait([], ErrorWait)
        case Some(got) =>
          if total.None? then Wait(got, ErrorWait)
          else if offset + Limit >= total.value || !Truthy(items) then Final(got)
          else Advance(got)
    else if r.status == 429 then Wait([], RateWait)
    else Stopped
  }

  /** The records a reply adds to the collection. */
  function Got(o: Outcome): seq<Json> {
    if o.Stopped? then [] else o.got
  }

  /** The offset of the request after one at `offset`. */
  function NextOffset(o: Outcome, offset: int): int {
    if o.Advance? then offset + Limit else offset
  }

  /** The wait after a reply, for the outcomes after which the loop goes on. */
  function Delay(o: Outcome): real
    requires o.Wait? || o.Advance?
  {
    if o.Wait? then o.delay else Pace
  }

  /**
   * What `_fetch_all_pages` gives: the records collected in order, the offset of each request
   * made (retries included), the seconds slept, and how the loop ended.
   */
  datatype Paged = Paged(items: seq<Json>, offsets: seq<int>, delays: seq<real>, stop: Stop)

  /** One more request, that collected `got` and was followed by a wait of `delay`, in front of the rest. */
  function Again(got: seq<Json>, offset: int, delay: real, rest: Paged): Paged {
    Paged(got + rest.items, [offset] + rest.offsets, [delay] + rest.delays, rest.stop)
  }

  /** Reading replies for one listing: the outcome of a reply to the request at an offset. */
  function Classifier(key: string): (Reply, int) -> Outcome {
    (r: Reply, offset: int) => Classify(r, key, offset)
  }

  /** A loop shaped like `_fetch_all_pages` from the request at `offset` on, each reply read by `step`. */
  function RunWith(replies: seq<Reply>, offset: int, step: (Reply, int) -> Outcome): Paged
    decreases |replies|
  {
    if replies == [] then Paged([], [], [], OutOfReplies)
    else
      var o := step(replies[0], offset);
      match o
      case Stopped => Paged([], [offset], [], RequestFailed)
      case Final(got) => Paged(got, [offset], [], Finished)
      case _ => Again(Got(o), offset, Delay(o), RunWith(replies[1..], NextOffset(o, offset), step))
  }

  /**
   * The loop of `_fetch_all_pages` from the request at `offset` on, over the replies to it and to
   * the requests after it. The source's loop has no bound of its own; it ends here also when the
   * replies run out.
   */
  function Run(replies: seq<Reply>, key: string, offset: int): Paged {
    RunWith(replies, offset, Classifier(key))
  }

  /** A run under way: what the requests so far gave, followed by what the remaining ones give. */
  function Resume(items: seq<Json>, offsets: seq<int>, delays: seq<real>, rest: Paged): Paged {
    Paged(items + rest.items, offsets + rest.offsets, delays + rest.delays, rest.stop)
  }

  lemma ResumeAgain(items: seq<Json>, offsets: seq<int>, delays: seq<real>, got: seq<Json>, offset: int, delay: real, rest: Paged)
    ensures Resume(items, offsets, delays, Again(got, offset, delay, rest))
      == Resume(items + got, offsets + [offset], delays + [delay], rest)
  {
    assert items + (got + rest.items) == items + got + rest.items;
    assert offsets + ([offset] + rest.offsets) == offsets + [offset] + rest.offsets;
    assert delays + ([delay] + rest.delays) == delays + [delay] + rest.delays;
  }

  /** The loop body's reading of one reply. */
  method ReadReply(reply: Reply, key: string, offset: int) returns (o: Outcome)
    ensures o == Classify(reply, key, offset)
  {
    if reply.Raised? {
      return Wait([], ErrorWait);
    }
    if reply.status == 200 {
      var page := ReadBody(reply.body, key);
      if page.BeforeItems? {
        return Wait([], ErrorWait);
      }
      var extended := Extended(page.items);
      if extended.None? {
        return Wait([], ErrorWait);
      }
      var got := extended.value;
      if page.total.None? {
        return Wait(got, ErrorWait);
      }
      if offset + Limit >= page.total.value || !Truthy(page.items) {
        return Final(got);
      }
      return Advance(got);
    }
    if reply.status == 429 {
      return Wait([], RateWait);
    }
    return Stopped;
  }

  /** `_fetch_all_pages(endpoint, data_key)`, over the replies to its requests in order. */
  method FetchAllPages(key: string, replies: seq<Reply>) returns (r: Paged)
    ensures r == Run(replies, key, 0)
  {
    var items: seq<Json> := [];
    var offsets: seq<int> := [];
    var delays: seq<real> := [];
    var offset := 0;
    var i := 0;
    assert Resume([], [], [], Run(replies, key, 0)) == Run(replies, key, 0);
    while i < |replies|
      invariant 0 <= i <= |replies|
      invariant Run(replies, key, 0) == Resume(items, offsets, delays, Run(replies[i..], key, offset))
    {
      assert replies[i..][1..] == replies[i + 1..];
      var o := ReadReply(replies[i], key, offset);
      if o.Stopped? {
        return Paged(items, offsets + [offset], delays, RequestFailed);
      }
      if o.Final? {
        return Paged(items + o.got, offsets + [offset], delays, Finished);
      }
      var next := if o.Advance? then offset + Limit else offset;
      ResumeAgain(items, offsets, delays, o.got, offset, Delay(o), Run(replies[i + 1..], key, next));
      items, offsets, delays := items + o.got, offsets + [offset], delays + [Delay(o)];
      offset := next;
      i := i + 1;
    }
    assert replies[i..] == [];
    return Paged(items, offsets, delays, OutOfReplies);
  }

  /** A step after which the loop goes on: a wait, or an advancing page. */
  predicate GoesOn(o: Outcome) {
    o.Wait? || o.Advance?
  }

  /** The offsets of a run: at most one request per reply, each next one as the previous step moved it. */
  lemma {:induction false} StepOffsets(replies: seq<Reply>, offset: int, step: (Reply, int) -> Outcome)
    ensures var f := RunWith(replies, offset, step); var n := |f.offsets|;
      && n <= |replies|
      && (replies != [] ==> n > 0 && f.offsets[0] == offset)
      && (forall k :: 0 <= k < n - 1 ==> (GoesOn(step(replies[k], f.offsets[k]))
            && f.offsets[k + 1] == NextOffset(step(replies[k], f.offsets[k]), f.offsets[k])))
    decreases |replies|
  {
    if replies != [] {
      var o := step(replies[0], offset);
      if GoesOn(o) {
        var next := NextOffset(o, offset);
        StepOffsets(replies[1..], next, step);
        var f, g := RunWith(replies, offset, step), RunWith(replies[1..], next, step);
        assert f == Again(Got(o), offset, Delay(o), g);
        forall k | 1 <= k < |f.offsets| ensures f.offsets[k] == g.offsets[k - 1] && replies[k] == replies[1..][k - 1] {
        }
      }
    }
  }

  /** The waits of a run: one after each step that went on, as `Delay` gives it. */
  lemma {:induction false} StepDelays(replies: seq<Reply>, offset: int, step: (Reply, int) -> Outcome)
    ensures var f := RunWith(replies, offset, step); var n := |f.offsets|;
      && |f.delays| == (if f.stop.OutOfReplies? then n else n - 1) && n <= |replies|
      && (forall k :: 0 <= k < |f.delays| ==> (GoesOn(step(replies[k], f.offsets[k]))
            && f.delays[k] == Delay(step(replies[k], f.offsets[k]))))
    decreases |replies|
  {
    if replies != [] {
      var o := step(replies[0], offset);
      if GoesOn(o) {
        var next := NextOffset(o, offset);
        StepDelays(replies[1..], next, step);
        var f, g := RunWith(replies, offset, step), RunWith(replies[1..], next, step);
        assert f == Again(Got(o), offset, Delay(o), g);
        forall k | 1 <= k < |f.delays|
          ensures f.offsets[k] == g.offsets[k - 1] && replies[k] == replies[1..][k - 1] && f.delays[k] == g.delays[k - 1]
        {
        }
      }
    }
  }

  /** How a run ends: by the step of its last request, or when the replies run out. */
  lemma {:induction false} StepStop(replies: seq<Reply>, offset: int, step: (Reply, int) -> Outcome)
    ensures var f := RunWith(replies, offset, step); var n := |f.offsets|;
      && n <= |replies| && !f.stop.Crashed?
      && (f.stop.OutOfReplies? ==> n == |replies|)
      && (f.stop.Finished? ==> n > 0 && step(replies[n - 1], f.offsets[n - 1]).Final?)
      && (f.stop.RequestFailed? ==> n > 0 && step(replies[n - 1], f.offsets[n - 1]).Stopped?)
    decreases |replies|
  {
    if replies != [] {
      var o := step(replies[0], offset);
      if GoesOn(o) {
        var next := NextOffset(o, offset);
        StepStop(replies[1..], next, step);
        var f, g := RunWith(replies, offset, step), RunWith(replies[1..], next, step);
        assert f == Again(Got(o), offset, Delay(o), g);
        var n := |f.offsets|;
        if n > 1 {
          assert f.offsets[n - 1] == g.offsets[n - 2] && replies[n - 1] == replies[1..][n - 2];
        }
      }
    }
  }

  /** What the requests at `offsets` added, reply by reply, each read by `step`, joined in request order. */
  function GatheredWith(replies: seq<Reply>, offsets: seq<int>, step: (Reply, int) -> Outcome): seq<Json>
    decreases |offsets|
  {
    if offsets == [] || replies == [] then []
    else Got(step(replies[0], offsets[0])) + GatheredWith(replies[1..], offsets[1..], step)
  }

  /** A run's records are what each of its requests added, joined in request order. */
  lemma {:induction false} StepItems(replies: seq<Reply>, offset: int, step: (Reply, int) -> Outcome)
    ensures var f := RunWith(replies, offset, step); f.items == GatheredWith(replies, f.offsets, step)
    decreases |replies|
  {
    if replies != [] {
      var o := step(replies[0], offset);
      var f := RunWith(replies, offset, step);
      if GoesOn(o) {
        var next := NextOffset(o, offset);
        StepItems(replies[1..], next, step);
        var g := RunWith(replies[1..], next, step);
        assert f == Again(Got(o), offset, Delay(o), g);
        assert f.offsets[1..] == g.offsets;
      } else {
        assert f.offsets[1..] == [];
      }
    }
  }

  /**
   * The offsets: one request per reply at most, the first at `offset`; each next one is 100
   * further after a page that advanced and the same after any wait.
   */
  lemma RunOffsets(replies: seq<Reply>, key: string, offset: int)
    ensures var f := Run(replies, key, offset); var n := |f.offsets|;
      && n <= |replies|
      && (replies != [] ==> n > 0 && f.offsets[0] == offset)
      && (forall k :: 0 <= k < n - 1 ==> (Goes(replies[k], key, f.offsets[k])
            && f.offsets[k + 1] == NextOffset(Classify(replies[k], key, f.offsets[k]), f.offsets[k])))
  {
    StepOffsets(replies, offset, Classifier(key));
  }

  /**
   * The waits: every request but the last was followed by its wait, 60 seconds after a 429, 5
   * after an exception, 0.25 after an advance; the last request was followed by none unless the
   * replies ran out.
   */
  lemma RunDelays(replies: seq<Reply>, key: string, offset: int)
    ensures var f := Run(replies, key, offset); var n := |f.offsets|;
      && |f.delays| == (if f.stop.OutOfReplies? then n else n - 1) && n <= |replies|
      && (forall k :: 0 <= k < |f.delays| ==> (Goes(replies[k], key, f.offsets[k])
            && f.delays[k] == Delay(Classify(replies[k], key, f.offsets[k]))))
  {
    StepDelays(replies, offset, Classifier(key));
  }

  /** A reply after which the loop goes on: a wait, or an advancing page. */
  predicate Goes(r: Reply, key: string, offset: int) {
    GoesOn(Classify(r, key, offset))
  }

  /**
   * How paging ends: `Finished` at a page that reached the total or was empty, `RequestFailed`
   * at a status other than 200 and 429, and the end of the supply only when every reply so far
   * let it go on.
   */
  lemma RunStop(replies: seq<Reply>, key: string, offset: int)
    ensures var f := Run(replies, key, offset); var n := |f.offsets|;
      && n <= |replies| && !f.stop.Crashed?
      && (f.stop.OutOfReplies? ==> n == |replies|)
      && (f.stop.Finished? ==> n > 0 && Classify(replies[n - 1], key, f.offsets[n - 1]).Final?)
      && (f.stop.RequestFailed? ==> n > 0 && Classify(replies[n - 1], key, f.offsets[n - 1]).Stopped?)
  {
    StepStop(replies, offset, Classifier(key));
  }

  /** What the requests at `offsets` added, reply by reply, joined in request order. */
  function Gathered(replies: seq<Reply>, key: string, offsets: seq<int>): seq<Json> {
    GatheredWith(replies, offsets, Classifier(key))
  }

  /** The records collected are what each request added, joined in request order; nothing is dropped. */
  lemma RunItems(replies: seq<Reply>, key: string, offset: int)
    ensures var f := Run(replies, key, offset); f.items == Gathered(replies, key, f.offsets)
  {
    StepItems(replies, offset, Classifier(key));
  }

  /** A reply that makes the loop wait is followed by a request at the same offset. */
  lemma RunWait(r: Reply, key: string, offset: int, rest: seq<Reply>)
    requires Classify(r, key, offset).Wait?
    ensures var o := Classify(r, key, offset);
      Run([r] + rest, key, offset) == Again(o.got, offset, o.delay, Run(rest, key, offset))
  {
    assert ([r] + rest)[1..] == rest;
  }

  /** What a readable page adds to the collection: what `extend` appended, nothing when it raised. */
  function Added(items: Json): seq<Json> {
    match Extended(items)
    case Some(xs) => xs
    case None => []
  }

  /**
   * A page without `meta.total` counts it as 0: the first readable page whose items `extend`
   * accepts ends paging; items it refuses make the same offset be asked for again.
   */
  lemma MissingTotal(r: Reply, key: string, offset: int)
    requires r.Reply? && r.status == 200 && r.body.JObj? && !Has(r.body, "meta") && offset >= 0
    ensures var e := Extended(GetOr(r.body, key, JList([])));
      && (e.Some? ==> Classify(r, key, offset) == Final(e.value))
      && (e.None? ==> Classify(r, key, offset) == Wait([], ErrorWait))
  {
  }

  /**
   * A total of `1e16`, which `json.loads` reads as a float, goes through `int()` as 10^16: a
   * non-empty page below it advances by 100 rather than being retried.
   */
  lemma LargeTotalAdvances(r: Reply, key: string, offset: int)
    requires r.Reply? && r.status == 200 && r.body.JObj?
    requires var meta := GetOr(r.body, "meta", JObj([]));
      meta.JObj? && GetOr(meta, "total", JInt(0)) == JFloat("1e+16")
    requires GetOr(r.body, key, JList([])).JList? && GetOr(r.body, key, JList([])).items != []
    requires offset + Limit < 10000000000000000
    ensures Classify(r, key, offset) == Advance(GetOr(r.body, key, JList([])).items)
  {
    LargeFloatInt();
    assert ReadBody(r.body, key) == Readable(GetOr(r.body, key, JList([])), Some(10000000000000000));
  }

  /**
   * A page whose items value `extend` refuses (null, a number, a boolean) adds nothing, and the
   * same offset is asked for again after 5 seconds, whatever total the page reports.
   */
  lemma UnextendableRetried(r: Reply, key: string, offset: int, rest: seq<Reply>)
    requires r.Reply? && r.status == 200 && r.body.JObj?
    requires var v := GetOr(r.body, key, JList([])); v.JNull? || v.JInt? || v.JFloat? || v.JBool?
    ensures Run([r] + rest, key, offset) == Again([], offset, ErrorWait, Run(rest, key, offset))
  {
    assert Classify(r, key, offset) == Wait([], ErrorWait);
    RunWait(r, key, offset, rest);
  }

  /**
   * A page whose `meta.total` `int()` cannot read is collected, and then asked for again at the
   * same offset: its records are collected twice when the retry reads the same.
   */
  lemma UnreadableTotal(r: Reply, key: string, rest: seq<Reply>)
    requires r.Reply? && r.status == 200 && r.body.JObj?
    requires At(r.body, "meta") == JObj([Field("total", JNull)])
    ensures var xs := Added(GetOr(r.body, key, JList([])));
      Run([r, r] + rest, key, 0) == Again(xs, 0, ErrorWait, Again(xs, 0, ErrorWait, Run(rest, key, 0)))
  {
    var xs := Added(GetOr(r.body, key, JList([])));
    assert Lookup([Field("total", JNull)], "total") == Some(JNull);
    assert Classify(r, key, 0) == Wait(xs, ErrorWait);
    assert [r, r] + rest == [r] + ([r] + rest);
    RunWait(r, key, 0, [r] + rest);
    RunWait(r, key, 0, rest);
  }

  /** `extract_all`: the deals, the stages and the contacts, each read whole, in that order. */
  datatype Tables = Tables(deals: seq<Json>, stages: seq<Json>, contacts: seq<Json>)

  method ExtractAll(dealReplies: seq<Reply>, stageReplies: seq<Reply>, contactReplies: seq<Reply>)
    returns (tables: Tables)
    ensures tables == Tables(Run(dealReplies, "deals", 0).items, Run(stageReplies, "dealStages", 0).items,
      Run(contactReplies, "contacts", 0).items)
  {
    var deals := FetchAllPages("deals", dealReplies);
    var stages := FetchAllPages("dealStages", stageReplies);
    var contacts := FetchAllPages("contacts", contactReplies);
    return Tables(deals.items, stages.items, contacts.items);
  }
}
