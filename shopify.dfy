/**
 * The Shopify connector: listings paged by following the `rel="next"` target of the `Link`
 * response header (section 3 of RFC 8288), and the rows of the orders, order items and
 * customers tables.
 */
module Shopify {
  import opened Json
  import opened Http
  import opened Seqs
  import opened Text

  /** The shop's settings: its name, the Admin API version and the access token sent on every request. */
  datatype Store = Store(shop: string, version: string, token: string)

  /** `https://{shop}.myshopify.com/admin/api/{version}`. */
  function BaseUrl(store: Store): string {
    "https://" + store.shop + ".myshopify.com/admin/api/" + store.version
  }

  /** `f"{base_url}/{endpoint}.json"`, the first URL of a listing. */
  function Url(store: Store, endpoint: string): string {
    BaseUrl(store) + "/" + endpoint + ".json"
  }

  /** The page size asked for when the caller gives none (Shopify's own default is 50, its maximum 250). */
  const PerPage := 250

  /** The query parameters of the first request: the caller's (none is `{}`), with `limit` added only when absent. */
  function WithLimit(params: Option<seq<Field>>): (p: seq<Field>)
    ensures params.None? ==> p == [Field("limit", JInt(PerPage))]
    ensures params.Some? && "limit" in Keys(params.value) ==> p == params.value
    ensures params.Some? && "limit" !in Keys(params.value) ==> p == params.value + [Field("limit", JInt(PerPage))]
  {
    var ps := if params.None? then [] else params.value;
    if "limit" !in Keys(ps) then SetField(ps, "limit", JInt(PerPage)) else ps
  }

  /** A caller's `limit` wins; otherwise `limit` is 250, and every other parameter is the caller's. */
  lemma LimitKept(params: seq<Field>, k: string)
    ensures Lookup(WithLimit(Some(params)), "limit") == if "limit" in Keys(params) then Lookup(params, "limit") else Some(JInt(PerPage))
    ensures k != "limit" ==> Lookup(WithLimit(Some(params)), k) == Lookup(params, k)
  {
  }

  // ---------------------------------------------------------------------------------------------
  // The `Link` header

  /** The first index from `j` on that holds `>`, or `|s|` when there is none. */
  function CloseFrom(s: string, j: nat): (k: nat)
    requires j <= |s|
    ensures j <= k <= |s| && (k < |s| ==> s[k] == '>')
    ensures forall m :: j <= m < k ==> s[m] != '>'
    decreases |s| - j
  {
    if j == |s| || s[j] == '>' then j else CloseFrom(s, j + 1)
  }

  /** The first index from `j` on that is not white space, or `|s|`. */
  function SpacesFrom(s: string, j: nat): (k: nat)
    requires j <= |s|
    ensures j <= k <= |s| && (k < |s| ==> !IsSpace(s[k]))
    ensures forall m :: j <= m < k ==> IsSpace(s[m])
    decreases |s| - j
  {
    if j == |s| || !IsSpace(s[j]) then j else SpacesFrom(s, j + 1)
  }

  /** The relation the connector looks for. */
  const RelNext := "rel=\"next\""

  /** `rel="next"` at index `k` of `s`. */
  predicate RelAt(s: string, k: nat) {
    k + |RelNext| <= |s| && s[k..k + |RelNext|] == RelNext
  }

  /**
   * The pattern `<([^>]+)>;\s*rel="next"` tried at index `i` of `s`, giving its group: a run of
   * at least one character other than `>` between `<` and the first `>` after it, then `;`, any
   * white space, and `rel="next"`.
   */
  function MatchAt(s: string, i: nat): Option<string>
    requires i <= |s|
  {
    if i < |s| && s[i] == '<' then
      var j := CloseFrom(s, i + 1);
      if j == i + 1 || j + 1 >= |s| || s[j + 1] != ';' then None
      else
        var k := SpacesFrom(s, j + 2);
        if RelAt(s, k) then Some(s[i + 1..j]) else None
    else None
  }

  /** No `>` in a string. */
  predicate Unclosed(u: string) {
    forall m :: 0 <= m < |u| ==> u[m] != '>'
  }

  /**
   * What the pattern matches at `i`, written out: `<`, a target `u` (non-empty, no `>`), `>;`, the
   * white space `gap`, and `rel="next"`.
   */
  predicate NextAt(s: string, i: nat, u: string, gap: string) {
    var j, k := i + 1 + |u|, i + 3 + |u| + |gap|;
    && u != [] && Unclosed(u) && AllSpace(gap) && k <= |s|
    && s[i] == '<' && s[i + 1..j] == u && s[j] == '>' && s[j + 1] == ';' && s[j + 2..k] == gap
    && RelAt(s, k)
  }

  /** The pattern matches at `i` with group `u` exactly when the text there is a `next` link to `u`. */
  lemma MatchAtNext(s: string, i: nat, u: string)
    requires i <= |s|
    ensures MatchAt(s, i) == Some(u) <==> exists gap :: NextAt(s, i, u, gap)
  {
    if MatchAt(s, i) == Some(u) {
      MatchGivesNext(s, i);
    }
    if gap :| NextAt(s, i, u, gap) {
      NextAtMatches(s, i, u, gap);
    }
  }

  lemma MatchGivesNext(s: string, i: nat)
    requires i <= |s| && MatchAt(s, i).Some?
    ensures exists gap :: NextAt(s, i, MatchAt(s, i).value, gap)
  {
    var j := CloseFrom(s, i + 1);
    var k := SpacesFrom(s, j + 2);
    assert s[i] == '<' && i + 1 < j && j + 1 < |s| && s[j] == '>' && s[j + 1] == ';';
    assert RelAt(s, k);
    var u, gap := s[i + 1..j], s[j + 2..k];
    assert MatchAt(s, i).value == u;
    assert i + 1 + |u| == j && i + 3 + |u| + |gap| == k;
    SliceUnclosed(s, i + 1, j);
    SliceSpace(s, j + 2, k);
    assert NextAt(s, i, u, gap);
  }

  lemma SliceUnclosed(s: string, a: nat, b: nat)
    requires a <= b <= |s| && forall p :: a <= p < b ==> s[p] != '>'
    ensures Unclosed(s[a..b])
  {
    assert forall m :: 0 <= m < b - a ==> s[a..b][m] == s[a + m];
  }

  lemma SliceSpace(s: string, a: nat, b: nat)
    requires a <= b <= |s| && forall p :: a <= p < b ==> IsSpace(s[p])
    ensures AllSpace(s[a..b])
  {
    assert forall m :: 0 <= m < b - a ==> s[a..b][m] == s[a + m];
  }

  lemma NextAtMatches(s: string, i: nat, u: string, gap: string)
    requires NextAt(s, i, u, gap)
    ensures MatchAt(s, i) == Some(u)
  {
    var j, k := i + 1 + |u|, i + 3 + |u| + |gap|;
    UnclosedSlice(s, i + 1, j);
    CloseAt(s, i + 1, j);
    SpaceSlice(s, j + 2, k);
    RelStart(s, k);
    SpacesAt(s, j + 2, k);
    assert CloseFrom(s, i + 1) == j && j != i + 1 && s[j + 1] == ';';
    assert SpacesFrom(s, j + 2) == k && RelAt(s, k);
  }

  lemma UnclosedSlice(s: string, a: nat, b: nat)
    requires a <= b <= |s| && Unclosed(s[a..b])
    ensures forall p :: a <= p < b ==> s[p] != '>'
  {
    assert forall p :: a <= p < b ==> s[p] == s[a..b][p - a];
  }

  lemma SpaceSlice(s: string, a: nat, b: nat)
    requires a <= b <= |s| && AllSpace(s[a..b])
    ensures forall p :: a <= p < b ==> IsSpace(s[p])
  {
    assert forall p :: a <= p < b ==> s[p] == s[a..b][p - a];
  }

  /** `rel="next"` starts with a letter, which is not white space. */
  lemma RelStart(s: string, k: nat)
    requires RelAt(s, k)
    ensures k < |s| && s[k] == 'r' && !IsSpace(s[k])
  {
    assert s[k] == s[k..k + |RelNext|][0];
  }

  /** `CloseFrom` stops at the first `>`. */
  lemma CloseAt(s: string, j: nat, k: nat)
    requires j <= k < |s| && s[k] == '>' && forall p :: j <= p < k ==> s[p] != '>'
    ensures CloseFrom(s, j) == k
  {
    var c := CloseFrom(s, j);
    assert !(c < k) && !(c > k);
  }

  /** `SpacesFrom` stops at the first character that is not white space. */
  lemma SpacesAt(s: string, j: nat, k: nat)
    requires j <= k < |s| && !IsSpace(s[k]) && forall p :: j <= p < k ==> IsSpace(s[p])
    ensures SpacesFrom(s, j) == k
  {
    var c := SpacesFrom(s, j);
    assert !(c < k) && !(c > k);
  }

  /** `re.search`: the group of the match at the leftmost index from `i` on where the pattern matches. */
  function Search(s: string, i: nat): Option<string>
    requires i <= |s|
    decreases |s| - i
  {
    if i == |s| then None else if MatchAt(s, i).Some? then MatchAt(s, i) else Search(s, i + 1)
  }

  /** The target of the `rel="next"` link of a `Link` header value, if it has one. */
  function NextLink(header: string): Option<string> {
    Search(header, 0)
  }

  /** The search finds nothing only when the pattern matches nowhere from `i` on. */
  lemma {:induction false} SearchNone(s: string, i: nat)
    requires i <= |s|
    ensures Search(s, i).None? <==> forall m :: i <= m <= |s| ==> MatchAt(s, m).None?
    decreases |s| - i
  {
    if i < |s| && MatchAt(s, i).None? {
      SearchNone(s, i + 1);
    }
  }

  /** The leftmost index from `i` on where the pattern matches, or `|s|`. */
  function FirstMatch(s: string, i: nat): (p: nat)
    requires i <= |s|
    ensures i <= p <= |s|
    decreases |s| - i
  {
    if i == |s| || MatchAt(s, i).Some? then i else FirstMatch(s, i + 1)
  }

  /** What the search finds is the match at the leftmost index where the pattern matches. */
  lemma {:induction false} SearchLeftmost(s: string, i: nat)
    requires i <= |s|
    ensures Search(s, i) == MatchAt(s, FirstMatch(s, i)) && NoMatchBetween(s, i, FirstMatch(s, i))
    decreases |s| - i
  {
    if i == |s| || MatchAt(s, i).Some? {
      assert FirstMatch(s, i) == i;
    } else {
      SearchLeftmost(s, i + 1);
      assert Search(s, i) == Search(s, i + 1);
      assert FirstMatch(s, i) == FirstMatch(s, i + 1);
    }
  }

  /** The pattern matches at no index from `i` up to `p`. */
  predicate NoMatchBetween(s: string, i: nat, p: nat)
    requires p <= |s|
  {
    forall m :: i <= m < p ==> MatchAt(s, m).None?
  }

  /** With no match before `p`, the search from `i` is the search from `p`. */
  lemma {:induction false} SearchFrom(s: string, i: nat, p: nat)
    requires i <= p <= |s| && NoMatchBetween(s, i, p)
    ensures Search(s, i) == Search(s, p)
    decreases p - i
  {
    if i < p {
      SearchFrom(s, i + 1, p);
    }
  }

  /** A `next` link to `u`: `<u>; rel="next"`. */
  function NextText(u: string): string {
    "<" + u + ">; " + RelNext
  }

  /** A `previous` link to `u`: `<u>; rel="previous"`. */
  function PrevText(u: string): string {
    "<" + u + ">; rel=\"previous\""
  }

  /**
   * A header as Shopify writes it: the optional `previous` link, then, after `, `, the optional
   * `next` link.
   */
  function LinkHeader(prev: Option<string>, next: Option<string>): string {
    match (prev, next)
    case (None, None) => ""
    case (Some(p), None) => PrevText(p)
    case (None, Some(n)) => NextText(n)
    case (Some(p), Some(n)) => PrevText(p) + ", " + NextText(n)
  }

  /** Neither `<` nor `>` in a URL. */
  predicate Plain(u: string) {
    forall m :: 0 <= m < |u| ==> u[m] != '<' && u[m] != '>'
  }

  /**
   * Reading Shopify's header back: its `next` target is found whatever the `previous` link, and
   * a header without a `next` link ends paging.
   */
  lemma LinkHeaderNext(prev: Option<string>, next: Option<string>)
    requires prev.Some? ==> Plain(prev.value)
    requires next.Some? ==> Plain(next.value) && next.value != []
    ensures NextLink(LinkHeader(prev, next)) == next
  {
    var s := LinkHeader(prev, next);
    match (prev, next)
    case (None, None) =>
    case (Some(p), None) =>
      PrevNoMatch(s, p, |s|);
      SearchFrom(s, 0, |s|);
    case (None, Some(n)) =>
      NextTextMatches(s, 0, n);
    case (Some(p), Some(n)) =>
      var start := |PrevText(p)| + 2;
      assert s[..|PrevText(p)|] == PrevText(p) && s[start..] == NextText(n);
      PrevNoMatch(s, p, start);
      SearchFrom(s, 0, start);
      NextTextMatches(s, start, n);
  }

  /** A `next` link to `u` at the end of `s` matches there. */
  lemma NextTextMatches(s: string, start: nat, u: string)
    requires start <= |s| && s[start..] == NextText(u) && Plain(u) && u != []
    ensures Search(s, start) == Some(u)
  {
    NextTextAt(s, start, u);
    NextAtMatches(s, start, u, " ");
  }

  /** `<u>; rel="next"` is a `next` link to `u` with a one-space gap. */
  lemma NextTextAt(s: string, start: nat, u: string)
    requires start <= |s| && s[start..] == NextText(u) && Plain(u) && u != []
    ensures NextAt(s, start, u, " ")
  {
    var t := NextText(u);
    var j := start + 1 + |u|;
    assert t == "<" + u + ">; " + RelNext;
    assert s[start] == t[0] == '<';
    assert s[start + 1..j] == t[1..1 + |u|] == u;
    assert s[j] == t[1 + |u|] == '>';
    assert s[j + 1] == t[2 + |u|] == ';';
    assert s[j + 2..j + 3] == t[3 + |u|..4 + |u|] == " ";
    assert s[j + 3..j + 3 + |RelNext|] == t[4 + |u|..] == RelNext;
  }

  /** No match inside a `previous` link at the front of `s`, nor before `start` where nothing opens a link. */
  lemma PrevNoMatch(s: string, u: string, start: nat)
    requires Plain(u)
    requires |PrevText(u)| <= start <= |s| && s[..|PrevText(u)|] == PrevText(u)
    requires forall m :: |PrevText(u)| <= m < start ==> s[m] != '<'
    ensures NoMatchBetween(s, 0, start)
  {
    var t := PrevText(u);
    assert t == "<" + u + ">; rel=\"previous\"";
    forall m | 0 <= m < start ensures MatchAt(s, m).None? {
      if 0 < m < |t| {
        assert s[m] == t[m];
        if m < 1 + |u| {
          assert t[m] == u[m - 1];
        } else {
          assert t[m] == ">; rel=\"previous\""[m - 1 - |u|];
        }
      } else if m == 0 {
        PrevLink(s, u);
      }
    }
  }

  /** At a `previous` link the pattern fails: the relation there is not `next`. */
  lemma PrevLink(s: string, u: string)
    requires Plain(u) && |PrevText(u)| <= |s| && s[..|PrevText(u)|] == PrevText(u)
    ensures MatchAt(s, 0).None?
  {
    var t := PrevText(u);
    assert t == "<" + u + ">; rel=\"previous\"";
    var j := 1 + |u|;
    forall q | 1 <= q < j ensures s[q] != '>' {
      assert s[q] == t[q] == u[q - 1];
    }
    assert s[j] == t[j] == '>';
    CloseAt(s, 1, j);
    assert s[j + 1] == t[j + 1] == ';' && s[j + 2] == t[j + 2] == ' ' && s[j + 3] == t[j + 3] == 'r';
    SpacesAt(s, j + 2, j + 3);
    assert s[j + 8] == t[j + 8] == 'p';
    assert RelNext[5] == 'n';
  }

  // ---------------------------------------------------------------------------------------------
  // Paging

  /** A GET of `_fetch_paginated`: the URL and the query parameters (None after the first page). */
  datatype Request = Request(url: string, params: Option<seq<Field>>)

  /** `response.headers.get("Link")`, with an absent header read as empty. */
  function LinkOf(r: Reply): string
    requires r.Reply?
  {
    if "Link" in r.headers then r.headers["Link"] else ""
  }

  /** Where paging goes after a reply: the `next` target of a non-empty `Link` header. */
  function NextUrl(r: Reply): Option<string>
    requires r.Reply?
  {
    var link := LinkOf(r);
    if link == "" then None else NextLink(link)
  }

  /**
   * The records of a page: what `extend` appends of `data.get(resource_key, [])`. None when that
   * raises: `.get` on a body that is not an object, or `extend` of null, a number or a boolean.
   */
  function PageData(r: Reply, key: string): (p: Option<seq<Json>>)
    requires r.Reply?
    ensures !r.body.JObj? ==> p.None?
    ensures r.body.JObj? ==> p == Extended(GetOr(r.body, key, JList([])))
  {
    if r.body.JObj? then Extended(GetOr(r.body, key, JList([]))) else None
  }

  /** A reply that raises out of the loop: a failed request, or a page `extend` cannot read. */
  predicate Broken(r: Reply, key: string) {
    Failed(r) || PageData(r, key).None?
  }

  /**
   * The loop of `_fetch_paginated` from the request to `url` with `params` on, over the replies
   * to it and to the requests after it. A request that fails, or a page that cannot be read,
   * raises out of the connector; a page without a `next` link is the last.
   */
  function Run(replies: seq<Reply>, key: string, url: string, params: Option<seq<Field>>): Fetched<Request>
    decreases |replies|
  {
    if replies == [] then Fetched([], [], OutOfReplies)
    else
      var r, q := replies[0], Request(url, params);
      if Broken(r, key) then Fetched([], [q], Crashed)
      else match NextUrl(r)
        case None => Fetched(PageData(r, key).value, [q], Finished)
        case Some(next) => Then(PageData(r, key).value, q, Run(replies[1..], key, next, None))
  }

  /** `_fetch_paginated(endpoint, params)`: the records sit under the endpoint's last path segment. */
  function PageRun(store: Store, endpoint: string, params: Option<seq<Field>>, replies: seq<Reply>): Fetched<Request> {
    Run(replies, LastSegment(endpoint, '/'), Url(store, endpoint), Some(WithLimit(params)))
  }

  /** `if params is None: params = {}` and `if "limit" not in params: params["limit"] = 250`. */
  method LimitParams(params: Option<seq<Field>>) returns (ps: seq<Field>)
    ensures ps == WithLimit(params)
  {
    ps := if params.None? then [] else params.value;
    if "limit" !in Keys(ps) {
      ps := SetField(ps, "limit", JInt(PerPage));
    }
  }

  /**
   * The loop body's reading of a successful reply: the records under the key, None when reading
   * them raised, and the `next` target, if any.
   */
  method ReadPage(reply: Reply, key: string) returns (page: Option<seq<Json>>, next: Option<string>)
    requires reply.Reply?
    ensures page == PageData(reply, key) && next == NextUrl(reply)
  {
    page := PageData(reply, key);
    var link := LinkOf(reply);
    if link != "" {
      next := NextLink(link);
    } else {
      next := None;
    }
  }

  /** `_fetch_paginated`, over the replies to its requests in order. */
  method FetchPaginated(store: Store, endpoint: string, params: Option<seq<Field>>, replies: seq<Reply>)
    returns (r: Fetched<Request>)
    ensures r == PageRun(store, endpoint, params, replies)
  {
    var items: seq<Json> := [];
    var sent: seq<Request> := [];
    var url := Url(store, endpoint);
    var ps := LimitParams(params);
    var query := Some(ps);
    var key := LastSegment(endpoint, '/');
    var i := 0;
    ResumeEmpty(Run(replies, key, url, query));
    while i < |replies|
      invariant 0 <= i <= |replies|
      invariant PageRun(store, endpoint, params, replies) == Resume(items, sent, Run(replies[i..], key, url, query))
    {
      var reply := replies[i];
      assert replies[i..][1..] == replies[i + 1..];
      var q := Request(url, query);
      if reply.Raised? || RaisesForStatus(reply.status) {
        return Fetched(items, sent + [q], Crashed);
      }
      var page, next := ReadPage(reply, key);
      if page.None? {
        return Fetched(items, sent + [q], Crashed);
      }
      if next.None? {
        return Fetched(items + page.value, sent + [q], Finished);
      }
      ResumeThen(items, sent, page.value, q, Run(replies[i + 1..], key, next.value, None));
      items, sent := items + page.value, sent + [q];
      url, query := next.value, None;
      i := i + 1;
    }
    assert replies[i..] == [];
    return Fetched(items, sent, OutOfReplies);
  }

  /** A reply that lets paging go on to `next`. */
  predicate Continued(r: Reply, key: string, next: string) {
    !Broken(r, key) && NextUrl(r) == Some(next)
  }

  /** A reply that lets paging go on. */
  predicate LinksOn(r: Reply, key: string) {
    !Broken(r, key) && NextUrl(r).Some?
  }

  /**
   * The requests: at most one per reply; the first goes to the given URL with the given
   * parameters; every later one goes to the `next` target of the reply before it, with no
   * parameters.
   */
  lemma {:induction false} RunRequests(replies: seq<Reply>, key: string, url: string, params: Option<seq<Field>>)
    ensures var f := Run(replies, key, url, params);
      && |f.requests| <= |replies|
      && (replies != [] ==> f.requests != [] && f.requests[0] == Request(url, params))
      && (forall k :: 0 <= k < |f.requests| - 1 ==>
            Continued(replies[k], key, f.requests[k + 1].url) && f.requests[k + 1].params.None?)
    decreases |replies|
  {
    if replies != [] {
      var r := replies[0];
      if !Broken(r, key) && NextUrl(r).Some? {
        var next := NextUrl(r).value;
        RunRequests(replies[1..], key, next, None);
        var f, g := Run(replies, key, url, params), Run(replies[1..], key, next, None);
        assert f == Then(PageData(r, key).value, Request(url, params), g);
        forall k | 0 <= k < |f.requests| - 1
          ensures Continued(replies[k], key, f.requests[k + 1].url) && f.requests[k + 1].params.None?
        {
          if k > 0 {
            assert f.requests[k + 1] == g.requests[k];
            assert replies[k] == replies[1..][k - 1];
          }
        }
      }
    }
  }

  /**
   * How paging ends: `Finished` at a readable page without a `next` link, `Crashed` at a failed
   * request or an unreadable page, and the end of the supply only when every reply so far linked on.
   */
  lemma {:induction false} RunStop(replies: seq<Reply>, key: string, url: string, params: Option<seq<Field>>)
    ensures var f := Run(replies, key, url, params); var n := |f.requests|;
      && n <= |replies| && !f.stop.RequestFailed?
      && (f.stop.OutOfReplies? <==> n == |replies| && forall k :: 0 <= k < n ==> LinksOn(replies[k], key))
      && (f.stop.Crashed? ==> n > 0 && Broken(replies[n - 1], key))
      && (f.stop.Finished? ==> n > 0 && !Broken(replies[n - 1], key) && NextUrl(replies[n - 1]).None?)
    decreases |replies|
  {
    if replies != [] {
      var r := replies[0];
      var f := Run(replies, key, url, params);
      if LinksOn(r, key) {
        var next := NextUrl(r).value;
        RunStop(replies[1..], key, next, None);
        var g := Run(replies[1..], key, next, None);
        assert f == Then(PageData(r, key).value, Request(url, params), g);
        var n := |f.requests|;
        assert n == |g.requests| + 1 && f.stop == g.stop;
        assert forall k :: 1 <= k < n ==> replies[k] == replies[1..][k - 1];
      }
    }
  }

  /** The number of requests whose page was kept: all of them, unless the last one failed. */
  function Served(f: Fetched<Request>): int {
    if f.stop.Crashed? then |f.requests| - 1 else |f.requests|
  }

  /** The records of a reply's page, none for a request or a page that raised. */
  function PageOf(key: string): Reply -> seq<Json> {
    (r: Reply) => if r.Reply? && PageData(r, key).Some? then PageData(r, key).value else []
  }

  /** The records paging collects are the pages of the successful requests, joined in request order. */
  lemma {:induction false} RunItems(replies: seq<Reply>, key: string, url: string, params: Option<seq<Field>>)
    ensures var f := Run(replies, key, url, params);
      && 0 <= Served(f) <= |replies|
      && (forall k :: 0 <= k < Served(f) ==> !Broken(replies[k], key))
      && f.items == PagesOf(replies, Served(f), PageOf(key))
    decreases |replies|
  {
    var page := PageOf(key);
    if replies != [] {
      var r := replies[0];
      var f := Run(replies, key, url, params);
      if !Broken(r, key) && NextUrl(r).Some? {
        var next := NextUrl(r).value;
        var g := Run(replies[1..], key, next, None);
        RunItems(replies[1..], key, next, None);
        assert f == Then(PageData(r, key).value, Request(url, params), g);
        assert Served(f) == Served(g) + 1;
        forall k | 1 <= k < Served(f) ensures !Broken(replies[k], key) {
          assert replies[k] == replies[1..][k - 1];
        }
        PagesOfCons(replies, Served(f), page);
      } else if !Broken(r, key) {
        PagesOfCons(replies, 1, page);
        assert PagesOf(replies[1..], 0, page) == [];
      } else {
        assert replies[..0] == [];
      }
    } else {
      assert replies[..0] == [];
    }
  }

  /** A first page without a `next` link is the only request, with the caller's parameters and `limit`. */
  lemma SinglePage(store: Store, endpoint: string, params: Option<seq<Field>>, replies: seq<Reply>)
    requires replies != [] && !Broken(replies[0], LastSegment(endpoint, '/')) && NextUrl(replies[0]).None?
    ensures var f := PageRun(store, endpoint, params, replies);
      && f.requests == [Request(Url(store, endpoint), Some(WithLimit(params)))]
      && f.items == PageData(replies[0], LastSegment(endpoint, '/')).value && f.stop.Finished?
  {
  }

  // ---------------------------------------------------------------------------------------------
  // Rows

  /** A `shopify_orders` row. */
  datatype Order = Order(id: string, orderNumber: Json, email: Json, totalPrice: Json, subtotalPrice: Json,
    totalTax: Json, totalDiscounts: Json, currency: Json, financialStatus: Json, fulfillmentStatus: Json,
    createdAt: Json, updatedAt: Json, customerId: Option<string>)

  /** A `shopify_order_items` row. */
  datatype OrderItem = OrderItem(id: string, orderId: string, variantId: string, productId: string,
    title: Json, quantity: Json, price: Json, sku: Json)

  /** A `shopify_customers` row. */
  datatype Customer = Customer(id: string, email: Json, firstName: Json, lastName: Json, ordersCount: Json,
    totalSpent: Json, createdAt: Json, updatedAt: Json)

  /** The three tables `extract` returns. */
  datatype Tables = Tables(orders: seq<Order>, orderItems: seq<OrderItem>, customers: seq<Customer>)

  /** `float(v.get(k, 0))`. */
  function FloatAt(v: Json, k: string): Json {
    ToFloat(GetOr(v, k, JInt(0)))
  }

  /** `customer_id`: None for an order without a (truthy) customer, else `str` of the customer's `id`. */
  function CustomerId(o: Json): (r: Option<string>)
    ensures !Truthy(At(o, "customer")) <==> r.None?
    ensures r.Some? ==> r.value == PyStr(At(At(o, "customer"), "id"))
  {
    if Truthy(At(o, "customer")) then Some(PyStr(At(GetOr(o, "customer", JObj([])), "id"))) else None
  }

  function OrderRow(o: Json): Order {
    Order(PyStr(At(o, "id")), At(o, "order_number"), At(o, "email"), FloatAt(o, "total_price"),
      FloatAt(o, "subtotal_price"), FloatAt(o, "total_tax"), FloatAt(o, "total_discounts"),
      At(o, "currency"), At(o, "financial_status"), At(o, "fulfillment_status"),
      At(o, "created_at"), At(o, "updated_at"), CustomerId(o))
  }

  /** The item row of `line` in order `o`. */
  function ItemRow(o: Json, line: Json): OrderItem {
    OrderItem(PyStr(At(line, "id")), PyStr(At(o, "id")), PyStr(At(line, "variant_id")),
      PyStr(At(line, "product_id")), At(line, "title"), ToInt(GetOr(line, "quantity", JInt(1))),
      FloatAt(line, "price"), At(line, "sku"))
  }

  /** The `line_items` of an order. */
  function LineItems(o: Json): seq<Json> {
    Elems(GetOr(o, "line_items", JList([])))
  }

  /** The item row builder of order `o`. */
  function ItemOf(o: Json): Json -> OrderItem {
    (line: Json) => ItemRow(o, line)
  }

  /** The item rows of one order, in line-item order. */
  function ItemRows(o: Json): seq<OrderItem> {
    Map(LineItems(o), ItemOf(o))
  }

  function CustomerRow(c: Json): Customer {
    Customer(PyStr(At(c, "id")), At(c, "email"), At(c, "first_name"), At(c, "last_name"),
      ToInt(GetOr(c, "orders_count", JInt(0))), FloatAt(c, "total_spent"), At(c, "created_at"), At(c, "updated_at"))
  }

  /** An item row names its order, and a missing quantity is 1. */
  lemma ItemDefaults(o: Json, line: Json)
    ensures ItemRow(o, line).orderId == OrderRow(o).id == PyStr(At(o, "id"))
    ensures !Has(line, "quantity") ==> ItemRow(o, line).quantity == JInt(1)
  {
  }

  /** A missing order count is 0, and an order without a customer has no customer id. */
  lemma RowDefaults(o: Json, c: Json)
    ensures !Has(c, "orders_count") ==> CustomerRow(c).ordersCount == JInt(0)
    ensures !Has(o, "customer") ==> OrderRow(o).customerId.None?
  {
  }

  /** `int(line.get("quantity", 1))` does not raise. */
  predicate QuantityOk(line: Json) {
    PyInt(GetOr(line, "quantity", JInt(1))).Some?
  }

  /** Every line item of order `o` has a quantity `int()` accepts. */
  predicate LinesOk(o: Json) {
    All(LineItems(o), QuantityOk)
  }

  /** No `int()` of the orders loop raises. */
  predicate QuantitiesOk(raw: seq<Json>) {
    All(raw, LinesOk)
  }

  /** `int(c.get("orders_count", 0))` does not raise. */
  predicate CountOk(c: Json) {
    PyInt(GetOr(c, "orders_count", JInt(0))).Some?
  }

  /** No `int()` of the customers loop raises. */
  predicate CountsOk(raw: seq<Json>) {
    All(raw, CountOk)
  }

  /**
   * The orders loop of `extract`: one row per order and, after it, one row per line item. `ok`
   * is false when an `int()` raised, which ends the extraction.
   */
  method OrderRows(raw: seq<Json>) returns (orders: seq<Order>, items: seq<OrderItem>, ok: bool)
    ensures ok <==> QuantitiesOk(raw)
    ensures ok ==> orders == Map(raw, OrderRow) && items == Concat(Map(raw, ItemRows))
  {
    orders, items := [], [];
    for i := 0 to |raw|
      invariant All(raw[..i], LinesOk)
      invariant orders == Map(raw[..i], OrderRow) && items == Concat(Map(raw[..i], ItemRows))
    {
      var o := raw[i];
      var rows, fine := ItemRowsOf(o);
      if !fine {
        AllMembers(raw, LinesOk);
        return [], [], false;
      }
      AllPrefixSnoc(raw, LinesOk, i);
      MapPrefixSnoc(raw, OrderRow, i);
      ConcatMapSnoc(raw, ItemRows, i);
      orders := orders + [OrderRow(o)];
      items := items + rows;
    }
    assert raw[..|raw|] == raw;
    ok := true;
  }

  /** The inner loop over the `line_items` of order `o`; `ok` is false when an `int()` raised. */
  method ItemRowsOf(o: Json) returns (rows: seq<OrderItem>, ok: bool)
    ensures ok <==> LinesOk(o)
    ensures ok ==> rows == ItemRows(o)
  {
    var lines := LineItems(o);
    rows := [];
    for j := 0 to |lines|
      invariant All(lines[..j], QuantityOk)
      invariant rows == Map(lines[..j], ItemOf(o))
    {
      if PyInt(GetOr(lines[j], "quantity", JInt(1))).None? {
        AllMembers(lines, QuantityOk);
        return [], false;
      }
      AllPrefixSnoc(lines, QuantityOk, j);
      MapPrefixSnoc(lines, ItemOf(o), j);
      rows := rows + [ItemRow(o, lines[j])];
    }
    assert lines[..|lines|] == lines;
    ok := true;
  }

  /** The customers loop of `extract`; `ok` is false when `int(c.get("orders_count", 0))` raised. */
  method CustomerRows(raw: seq<Json>) returns (customers: seq<Customer>, ok: bool)
    ensures ok <==> CountsOk(raw)
    ensures ok ==> customers == Map(raw, CustomerRow)
  {
    customers := [];
    for i := 0 to |raw|
      invariant All(raw[..i], CountOk)
      invariant customers == Map(raw[..i], CustomerRow)
    {
      if PyInt(GetOr(raw[i], "orders_count", JInt(0))).None? {
        AllMembers(raw, CountOk);
        return [], false;
      }
      AllPrefixSnoc(raw, CountOk, i);
      MapPrefixSnoc(raw, CustomerRow, i);
      customers := customers + [CustomerRow(raw[i])];
    }
    assert raw[..|raw|] == raw;
    ok := true;
  }

  /** In tables that came back, every `quantity` and every `orders_count` is the integer `int()` made of the record's value. */
  lemma IntCells(raw: seq<Json>, customers: seq<Json>)
    requires QuantitiesOk(raw) && CountsOk(customers)
    ensures forall i, j :: 0 <= i < |raw| && 0 <= j < |LineItems(raw[i])| ==>
      var cell := ItemRows(raw[i])[j].quantity;
      cell.JInt? && PyInt(GetOr(LineItems(raw[i])[j], "quantity", JInt(1))) == Some(cell.i)
    ensures forall i :: 0 <= i < |customers| ==>
      var cell := Map(customers, CustomerRow)[i].ordersCount;
      cell.JInt? && PyInt(GetOr(customers[i], "orders_count", JInt(0))) == Some(cell.i)
  {
    AllMembers(raw, LinesOk);
    AllMembers(customers, CountOk);
    forall i, j | 0 <= i < |raw| && 0 <= j < |LineItems(raw[i])|
      ensures var cell := ItemRows(raw[i])[j].quantity;
        cell.JInt? && PyInt(GetOr(LineItems(raw[i])[j], "quantity", JInt(1))) == Some(cell.i)
    {
      assert LinesOk(raw[i]);
      AllMembers(LineItems(raw[i]), QuantityOk);
    }
    forall i | 0 <= i < |customers|
      ensures var cell := Map(customers, CustomerRow)[i].ordersCount;
        cell.JInt? && PyInt(GetOr(customers[i], "orders_count", JInt(0))) == Some(cell.i)
    {
      assert CountOk(customers[i]);
    }
  }

  /** A null `quantity` and an `orders_count` that is a list make `int()` raise. */
  lemma BadIntsRaise()
    ensures !QuantitiesOk([JObj([Field("line_items", JList([JObj([Field("quantity", JNull)])]))])])
    ensures !CountsOk([JObj([Field("orders_count", JList([]))])])
  {
    var line := JObj([Field("quantity", JNull)]);
    var order := JObj([Field("line_items", JList([line]))]);
    assert Lookup(line.fields, "quantity") == Some(JNull);
    assert Lookup(order.fields, "line_items") == Some(JList([line]));
    assert LineItems(order)[0] == line && !QuantityOk(line);
    AllMembers([order], LinesOk);
    var c := JObj([Field("orders_count", JList([]))]);
    assert Lookup(c.fields, "orders_count") == Some(JList([]));
    AllMembers([c], CountOk);
  }

  /**
   * Every item row belongs to one of the orders: its `order_id` is that order row's `id`, and
   * there are as many item rows as line items over all orders.
   */
  lemma {:induction false} ItemsOfOrders(raw: seq<Json>)
    ensures |Map(raw, OrderRow)| == |raw|
    ensures |Concat(Map(raw, ItemRows))| == SumLengths(Map(raw, ItemRows))
    ensures var items := Concat(Map(raw, ItemRows));
      forall j :: 0 <= j < |items| ==>
           exists i :: 0 <= i < |raw| && items[j].orderId == Map(raw, OrderRow)[i].id
  {
    var xss: seq<seq<OrderItem>> := Map(raw, ItemRows);
    ConcatLength(xss);
    forall j | 0 <= j < |Concat(xss)|
      ensures exists i :: 0 <= i < |raw| && Concat(xss)[j].orderId == Map(raw, OrderRow)[i].id
    {
      ConcatMember(xss, j);
      var i: int, k: int :| 0 <= i < |xss| && 0 <= k < |xss[i]| && Concat(xss)[j] == xss[i][k];
      assert xss[i] == ItemRows(raw[i]);
      assert xss[i][k] == ItemRow(raw[i], LineItems(raw[i])[k]);
      assert Concat(xss)[j].orderId == Map(raw, OrderRow)[i].id;
    }
  }

  /** The orders filter: updated within the window, any status (cancelled and closed included). */
  function OrderParams(first: string, last: string): seq<Field> {
    [Field("updated_at_min", JStr(first)), Field("updated_at_max", JStr(last)), Field("status", JStr("any"))]
  }

  /** The customers filter: updated within the window. */
  function CustomerParams(first: string, last: string): seq<Field> {
    [Field("updated_at_min", JStr(first)), Field("updated_at_max", JStr(last))]
  }

  /**
   * `extract(date_start, date_stop)` with the window's bounds already written by `isoformat()`:
   * the orders (with their line items), then the customers. A failed request, or an `int()` of
   * either loop that raises, escapes the connector, so the tables come back only when both
   * listings and both loops finished.
   */
  method Extract(store: Store, first: string, last: string, orderReplies: seq<Reply>, customerReplies: seq<Reply>)
    returns (tables: Option<Tables>, ended: Stop)
    ensures var fo := PageRun(store, "orders", Some(OrderParams(first, last)), orderReplies);
      var fc := PageRun(store, "customers", Some(CustomerParams(first, last)), customerReplies);
      && ended == (if !fo.stop.Finished? then fo.stop
        else if !QuantitiesOk(fo.items) then Crashed
        else if !fc.stop.Finished? then fc.stop
        else if !CountsOk(fc.items) then Crashed
        else Finished)
      && (tables.Some? <==> ended.Finished?)
      && (tables.Some? ==> tables.value == Tables(Map(fo.items, OrderRow), Concat(Map(fo.items, ItemRows)), Map(fc.items, CustomerRow)))
  {
    var fo := FetchPaginated(store, "orders", Some(OrderParams(first, last)), orderReplies);
    if !fo.stop.Finished? {
      return None, fo.stop;
    }
    var orders, items, ok := OrderRows(fo.items);
    if !ok {
      return None, Crashed;
    }
    var fc := FetchPaginated(store, "customers", Some(CustomerParams(first, last)), customerReplies);
    if !fc.stop.Finished? {
      return None, fc.stop;
    }
    var customers;
    customers, ok := CustomerRows(fc.items);
    if !ok {
      return None, Crashed;
    }
    return Some(Tables(orders, items, customers)), Finished;
  }
}
