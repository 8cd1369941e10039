/** What one HTTP request gives back to a connector, and what a paging loop gives back. */
module Http {
  import opened Json
  import opened Seqs
  import opened Text

  /**
   * `Reply` is a response that arrived; `Raised` is an exception raised by the `requests` call
   * itself (connection error, timeout). Header names are matched exactly as given.
   */
  datatype Reply = Reply(status: int, headers: map<string, string>, body: Json) | Raised

  /** `response.raise_for_status()` raises for client and server errors. */
  predicate RaisesForStatus(status: int) {
    400 <= status < 600
  }

  /** The request failed: the call raised, or `raise_for_status()` would. */
  predicate Failed(r: Reply) {
    r.Raised? || RaisesForStatus(r.status)
  }

  /**
   * How a paging loop ended: the source's own stop condition, a failed request that ends the
   * loop quietly, an exception escaping the connector (the records collected so far are then
   * lost to the caller), or, for loops the source does not bound, the end of the modelled supply
   * of replies.
   */
  datatype Stop = Finished | RequestFailed | Crashed | OutOfReplies

  /**
   * What a paging loop returns: the records collected in order, the paging parameter of each
   * request made (a start offset, a page number, a cursor, a URL), and how the loop ended.
   */
  datatype Fetched<Q> = Fetched(items: seq<Json>, requests: seq<Q>, stop: Stop)

  /** One more request, whose page contributed `page`, in front of the rest of a run. */
  function Then<Q>(page: seq<Json>, q: Q, rest: Fetched<Q>): Fetched<Q> {
    Fetched(page + rest.items, [q] + rest.requests, rest.stop)
  }

  /** A run under way: what the requests so far gave, followed by what the remaining ones give. */
  function Resume<Q>(items: seq<Json>, reqs: seq<Q>, rest: Fetched<Q>): Fetched<Q> {
    Fetched(items + rest.items, reqs + rest.requests, rest.stop)
  }

  lemma ResumeThen<Q>(items: seq<Json>, reqs: seq<Q>, page: seq<Json>, q: Q, rest: Fetched<Q>)
    ensures Resume(items, reqs, Then(page, q, rest)) == Resume(items + page, reqs + [q], rest)
  {
    assert items + (page + rest.items) == items + page + rest.items;
    assert reqs + ([q] + rest.requests) == reqs + [q] + rest.requests;
  }

  lemma ResumeEmpty<Q>(f: Fetched<Q>)
    ensures Resume([], [], f) == f
  {
    assert [] + f.items == f.items;
    assert [] + f.requests == f.requests;
  }

  /** The number of requests whose page was kept: all of them, unless the last one failed. */
  function Kept<Q>(f: Fetched<Q>): int {
    if f.stop.RequestFailed? then |f.requests| - 1 else |f.requests|
  }

  /** The pages of the first `n` replies, joined in request order. */
  function PagesOf<R>(replies: seq<R>, n: nat, page: R -> seq<Json>): seq<Json>
    requires n <= |replies|
  {
    Concat(Map(replies[..n], page))
  }

  /** Peeling the first reply off a run of pages. */
  lemma PagesOfCons<R>(replies: seq<R>, n: nat, page: R -> seq<Json>)
    requires 1 <= n <= |replies|
    ensures PagesOf(replies, n, page) == page(replies[0]) + PagesOf(replies[1..], n - 1, page)
  {
    var m := Map(replies[..n], page);
    assert m == [page(replies[0])] + Map(replies[1..][..n - 1], page);
    ConcatAppend([page(replies[0])], Map(replies[1..][..n - 1], page));
    assert Concat([page(replies[0])]) == Concat([]) + page(replies[0]);
  }

  /** What a short-page loop makes of one page: it stops, it raises, or it keeps these records. */
  datatype ShortPage = Halt | Raises | Records(records: seq<Json>)

  /** The records a page contributes: none when it stopped or raised the loop. */
  function PageKept(page: ShortPage): seq<Json> {
    if page.Records? then page.records else []
  }

  /**
   * A page loop that stops on a short page: `pages[i]` is what the `i`-th page makes of the loop.
   * A page that stops it is not kept, one that raises ends the run `Crashed`, a page of fewer than
   * `full` records is kept and ends the loop; the requests are named `q`, `q + step`, ….
   */
  function ShortRun(pages: seq<ShortPage>, q: int, step: int, full: nat): Fetched<int>
    decreases |pages|
  {
    if pages == [] then Fetched([], [], OutOfReplies)
    else match pages[0]
      case Halt => Fetched([], [q], Finished)
      case Raises => Fetched([], [q], Crashed)
      case Records(p) => if |p| < full then Fetched(p, [q], Finished) else Then(p, q, ShortRun(pages[1..], q + step, step, full))
  }

  /**
   * A short-page loop requests `q`, `q + step`, … with at most one request per page; every page
   * but the last was kept and full; the run crashed exactly when the last page raised, and
   * otherwise finished on a page that stopped it or was short, unless the supply ran out.
   */
  lemma {:induction false} ShortPaging(pages: seq<ShortPage>, q: int, step: int, full: nat)
    ensures var f := ShortRun(pages, q, step, full); var n := |f.requests|;
      && n <= |pages|
      && (forall k :: 0 <= k < n ==> f.requests[k] == q + step * k)
      && (forall k :: 0 <= k < n - 1 ==> pages[k].Records? && |pages[k].records| >= full)
      && !f.stop.RequestFailed?
      && (f.stop.OutOfReplies? ==> n == |pages|)
      && (f.stop.Crashed? <==> n > 0 && pages[n - 1].Raises?)
      && (f.stop.Finished? ==> n > 0 && (pages[n - 1].Halt? || (pages[n - 1].Records? && |pages[n - 1].records| < full)))
    decreases |pages|
  {
    if pages != [] && pages[0].Records? && |pages[0].records| >= full {
      var f := ShortRun(pages, q, step, full);
      ShortPaging(pages[1..], q + step, step, full);
      var g := ShortRun(pages[1..], q + step, step, full);
      assert f == Then(pages[0].records, q, g);
      assert forall k :: 1 <= k <= |g.requests| ==> f.requests[k] == g.requests[k - 1];
      assert forall k :: 1 <= k < |pages| ==> pages[k] == pages[1..][k - 1];
    }
  }

  /** The records of a short-page loop are its pages joined in request order. */
  lemma {:induction false} ShortItems(pages: seq<ShortPage>, q: int, step: int, full: nat)
    ensures var f := ShortRun(pages, q, step, full);
      |f.requests| <= |pages| && f.items == PagesOf(pages, |f.requests|, PageKept)
    decreases |pages|
  {
    if pages != [] {
      var f := ShortRun(pages, q, step, full);
      if pages[0].Records? && |pages[0].records| >= full {
        ShortItems(pages[1..], q + step, step, full);
        var g := ShortRun(pages[1..], q + step, step, full);
        assert f == Then(pages[0].records, q, g);
        PagesOfCons(pages, |f.requests|, PageKept);
      } else {
        PagesOfCons(pages, 1, PageKept);
      }
    }
  }

  /** What a bounded retry helper (`_safe_request`) gives back: the body, the number of requests made, and the sleeps in seconds. */
  datatype Attempted = Attempted(body: Option<Json>, tries: nat, delays: seq<int>)

  /** The outcome of the attempts from some point on, after the sleeps already taken. */
  function After(delays: seq<int>, a: Attempted): Attempted {
    Attempted(a.body, a.tries, delays + a.delays)
  }

  lemma AfterSleep(delays: seq<int>, d: int, a: Attempted)
    ensures After(delays, Attempted(a.body, a.tries, [d] + a.delays)) == After(delays + [d], a)
  {
    assert delays + ([d] + a.delays) == (delays + [d]) + a.delays;
  }

  lemma AfterDone(delays: seq<int>, body: Option<Json>, tries: nat)
    ensures After(delays, Attempted(body, tries, [])) == Attempted(body, tries, delays)
  {
    assert delays + [] == delays;
  }

  /**
   * The ceiling of a float written as `[-]digits.digits`; None for any other repr (exponent
   * notation, `inf`, `nan`).
   */
  function FloatCeil(r: string): Option<int> {
    match TruncFloatRepr(r)
    case None => None
    case Some(t) =>
      var parts := Split(r, '.');
      var up := |parts| == 2 && (exists i :: 0 <= i < |parts[1]| && parts[1][i] != '0') && !(|r| > 0 && r[0] == '-');
      Some(if up then t + 1 else t)
  }

  /** The least integer at or above `m * 10^k`. */
  function CeilScaled(m: int, k: int): (c: int)
    ensures k >= 0 ==> c == m * Pow10(k)
    ensures k < 0 ==> (c - 1) * Pow10(-k) < m <= c * Pow10(-k)
  {
    if k >= 0 then m * Pow10(k)
    else
      var d := Pow10(-k);
      CeilDiv(m, d);
      -((-m) / d)
  }

  lemma CeilDiv(m: int, d: int)
    requires d >= 1
    ensures (-((-m) / d) - 1) * d < m <= -((-m) / d) * d
  {
    var q, r := (-m) / d, (-m) % d;
    assert -m == q * d + r && 0 <= r < d;
    assert -((-m) / d) * d == -(q * d);
    assert (-q - 1) * d == -(q * d) - d;
  }

  /**
   * `page >= total_pages`: None when the comparison raises TypeError (a string, None, a list, a
   * dict). A float is compared through its ceiling: a plain repr's is read off its digits, and a
   * repr in exponent notation is the double nearest its decimal, a whole number from 2^53 on;
   * `inf` and `nan` are never reached and `-inf` always is.
   */
  function AtLastPage(page: int, total: Json): (r: Option<bool>)
    ensures total.JInt? ==> r == Some(page >= total.i)
    ensures total.JStr? || total.JNull? || total.JList? || total.JObj? ==> r.None?
    ensures total == JFloat("inf") || total == JFloat("nan") ==> r == Some(false)
    ensures total == JFloat("-inf") ==> r == Some(true)
    ensures total.JFloat? && !Special(total.repr) && FloatCeil(total.repr).Some? ==>
      r == Some(page >= FloatCeil(total.repr).value)
    ensures (total.JFloat? && !Special(total.repr) && FloatCeil(total.repr).None? && ExpRepr(total.repr).Some?
      && ExpRepr(total.repr).value.1 >= 0) ==>
      r == Some(page >= ExpTrunc(ExpRepr(total.repr).value.0, ExpRepr(total.repr).value.1))
    ensures (total.JFloat? && !Special(total.repr) && FloatCeil(total.repr).None? && ExpRepr(total.repr).Some?
      && ExpRepr(total.repr).value.1 < 0) ==>
      r == Some(page >= CeilScaled(ExpRepr(total.repr).value.0, ExpRepr(total.repr).value.1))
  {
    match total
    case JInt(t) => Some(page >= t)
    case JBool(b) => Some(page >= if b then 1 else 0)
    case JFloat(f) =>
      if f == "inf" || f == "nan" then Some(false)
      else if f == "-inf" then Some(true)
      else if FloatCeil(f).Some? then Some(page >= FloatCeil(f).value)
      else if ExpRepr(f).Some? then
        var (m, k) := ExpRepr(f).value;
        Some(page >= if k >= 0 then ExpTrunc(m, k) else CeilScaled(m, k))
      else None
    case _ => None
  }

  /** `1e+16` is not a plain `digits.digits` repr. */
  lemma NotPlainLarge()
    ensures FloatCeil("1e+16").None?
  {
    NotTruncLarge();
  }

  /** A page count of `1e+16` is not reached by any page below 10^16, so paging goes on. */
  lemma LargeFloatTotal(page: int)
    requires page < 10000000000000000
    ensures AtLastPage(page, JFloat("1e+16")) == Some(false)
  {
    NotPlainLarge();
    LargeExpTrunc();
  }

  /** What one reply makes a loop that pages against a reported page count do. */
  datatype Step =
    | Raise                        // the request raised
    | Empty                        // no records: stop
    | Last(items: seq<Json>)       // records, and `page >=` the page count: keep them and stop
    | More(items: seq<Json>)       // records, and more pages reported: keep them and go on
    | BadTotal(items: seq<Json>)   // records, but the comparison with the page count raised

  /** The records a step keeps. */
  function StepItems(s: Step): seq<Json> {
    if s.Raise? || s.Empty? then [] else s.items
  }
}
