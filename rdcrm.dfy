/**
 * The RD Station CRM connector: column-name normalisation, the three-attempt request helper with
 * its back-off, the deal flattener, and the deal and stage extractions.
 */
module RdCrm {
  import opened Text
  import opened Json
  import opened Http
  import opened Seqs

  // ---------------------------------------------------------------------------------------------
  // Column names

  /**
   * Compatibility decomposition followed by dropping everything outside ASCII, for one character.
   * Latin-1 is decomposed as Unicode does it (accented letters to their base letter, superscript
   * digits and ordinals to plain ones, the vulgar fractions to their digits, the no-break space
   * and the spacing diacritics to a space); other characters keep their ASCII part only.
   */
  function FoldChar(c: char): (r: string)
    ensures forall i :: 0 <= i < |r| ==> r[i] < '\U{80}'
  {
    if c < '\U{80}' then [c]
    else if c == '\U{A0}' || c == '\U{A8}' || c == '\U{AF}' || c == '\U{B4}' || c == '\U{B8}' then " "
    else if c == '\U{AA}' then "a"
    else if c == '\U{BA}' then "o"
    else if c == '\U{B9}' then "1"
    else if c == '\U{B2}' then "2"
    else if c == '\U{B3}' then "3"
    else if c == '\U{BC}' then "14"
    else if c == '\U{BD}' then "12"
    else if c == '\U{BE}' then "34"
    else AsciiPart(Unaccent(c))
  }

  function AsciiPart(s: string): (r: string)
    ensures forall i :: 0 <= i < |r| ==> r[i] < '\U{80}'
  {
    if s == [] then [] else (if s[0] < '\U{80}' then [s[0]] else []) + AsciiPart(s[1..])
  }

  /** `unicodedata.normalize('NFKD', s).encode('ASCII', 'ignore').decode('ASCII')`. */
  function Fold(s: string): (r: string)
    ensures forall i :: 0 <= i < |r| ==> r[i] < '\U{80}'
  {
    if s == [] then [] else FoldChar(s[0]) + Fold(s[1..])
  }

  /** `re.sub(r'[^a-z0-9_]', '_', s)`. */
  function Underscore(s: string): (r: string)
    ensures |r| == |s| && AllNameChars(r)
  {
    seq(|s|, i requires 0 <= i < |s| => if IsNameChar(s[i]) then s[i] else '_')
  }

  predicate NoDoubleUnderscore(s: string) {
    forall i :: 0 <= i < |s| - 1 ==> !(s[i] == '_' && s[i + 1] == '_')
  }

  function DropUnderscores(s: string): (r: string)
    ensures r == [] || r[0] != '_'
    ensures |r| <= |s|
    ensures AllNameChars(s) ==> AllNameChars(r)
  {
    if s != [] && s[0] == '_' then DropUnderscores(s[1..]) else s
  }

  /** `re.sub(r'_+', '_', s)`: every run of underscores becomes one. */
  function Squeeze(s: string): (r: string)
    ensures NoDoubleUnderscore(r)
    ensures s != [] ==> r != [] && r[0] == s[0]
    ensures AllNameChars(s) ==> AllNameChars(r)
    decreases |s|
  {
    if s == [] then []
    else if s[0] == '_' then ['_'] + Squeeze(DropUnderscores(s[1..]))
    else [s[0]] + Squeeze(s[1..])
  }

  /** `s.strip('_')` keeps a slice of the string, so it keeps the name characters and the single underscores. */
  lemma {:induction false} StripKeeps(s: string)
    requires AllNameChars(s) && NoDoubleUnderscore(s)
    ensures AllNameChars(StripChar(s, '_')) && NoDoubleUnderscore(StripChar(s, '_'))
  {
    if s != [] && s[0] == '_' {
      StripKeeps(s[1..]);
    } else if s != [] && s[|s| - 1] == '_' {
      StripKeeps(s[..|s| - 1]);
    }
  }

  /** The normaliser's pipeline on a string. */
  function NormStr(s: string): (r: string)
    ensures AllNameChars(r) && NoDoubleUnderscore(r)
    ensures r == [] || (r[0] != '_' && r[|r| - 1] != '_')
  {
    var t := Squeeze(Underscore(Lower(Fold(s))));
    StripKeeps(t);
    StripChar(t, '_')
  }

  /**
   * `_normalize_name`: "" for a falsy value; otherwise `str(text)` folded to ASCII, lower-cased,
   * every other character turned into `_`, runs of `_` squeezed and `_` stripped at both ends.
   */
  function NormalizeName(text: Json): (r: string)
    ensures !Truthy(text) ==> r == ""
    ensures AllNameChars(r) && NoDoubleUnderscore(r)
    ensures r == [] || (r[0] != '_' && r[|r| - 1] != '_')
  {
    if !Truthy(text) then "" else NormStr(PyStr(text))
  }

  lemma {:induction false} FoldAscii(s: string)
    requires forall i :: 0 <= i < |s| ==> s[i] < '\U{80}'
    ensures Fold(s) == s
  {
    if s != [] {
      FoldAscii(s[1..]);
    }
  }

  lemma {:induction false} SqueezeId(s: string)
    requires NoDoubleUnderscore(s)
    ensures Squeeze(s) == s
  {
    if s != [] {
      if s[0] == '_' {
        assert s[1..] == [] || s[1] != '_';
        assert DropUnderscores(s[1..]) == s[1..];
      }
      SqueezeId(s[1..]);
    }
  }

  lemma NameCharsFold(t: string)
    requires AllNameChars(t)
    ensures Fold(t) == t
  {
    forall i | 0 <= i < |t| ensures t[i] < '\U{80}' { assert IsNameChar(t[i]); }
    FoldAscii(t);
  }

  lemma NameCharsLower(t: string)
    requires AllNameChars(t)
    ensures Lower(t) == t
  {
    forall i | 0 <= i < |t| ensures Lower(t)[i] == t[i] { assert IsNameChar(t[i]); }
  }

  /** A name the pipeline could have produced goes through it unchanged. */
  lemma NormStrFixed(t: string)
    requires AllNameChars(t) && NoDoubleUnderscore(t)
    requires t == [] || (t[0] != '_' && t[|t| - 1] != '_')
    ensures NormStr(t) == t
  {
    NameCharsFold(t);
    NameCharsLower(t);
    assert Underscore(t) == t;
    SqueezeId(t);
  }

  /** Normalising a normalised name changes nothing. */
  lemma NormalizeIdempotent(text: Json)
    ensures NormalizeName(JStr(NormalizeName(text))) == NormalizeName(text)
  {
    var t := NormalizeName(text);
    if t != [] {
      NormStrFixed(t);
      assert NormalizeName(JStr(t)) == NormStr(t);
    }
  }

  // ---------------------------------------------------------------------------------------------
  // The request helper

  /** A reply after which the helper sleeps and tries again: a raised call or a 429. */
  predicate Retryable(r: Reply) {
    r.Raised? || r.status == 429
  }

  /** The sleep after attempt `k` (0-based): 5 s after a connection error, `60 * (k + 1)` s after a 429. */
  function Backoff(r: Reply, k: nat): int {
    if r.Raised? then 5 else 60 * (k + 1)
  }

  /**
   * The attempt loop of `_safe_request` from attempt `k` on, where `reply(k)` is the reply to
   * attempt `k`: a 200 returns its body, a status other than 200 and 429 gives up at once, and
   * a raised call or a 429 sleeps and tries again while attempts remain.
   */
  function AttemptsFrom(reply: nat -> Reply, k: nat): Attempted
    decreases 3 - k
  {
    if k >= 3 then Attempted(None, k, [])
    else
      var r := reply(k);
      if r.Raised? || r.status == 429 then
        var rest := AttemptsFrom(reply, k + 1);
        Attempted(rest.body, rest.tries, [Backoff(r, k)] + rest.delays)
      else if r.status == 200 then Attempted(Some(r.body), k + 1, [])
      else Attempted(None, k + 1, [])
  }

  /** `_safe_request`; `reply(k)` stands for the reply to attempt `k`. */
  method SafeRequest(reply: nat -> Reply) returns (r: Attempted)
    ensures r == AttemptsFrom(reply, 0)
  {
    var delays: seq<int> := [];
    var attempt := 0;
    while attempt < 3
      invariant 0 <= attempt <= 3
      invariant AttemptsFrom(reply, 0) == After(delays, AttemptsFrom(reply, attempt))
    {
      var res := reply(attempt);
      ghost var rest := AttemptsFrom(reply, attempt + 1);
      if res.Reply? && res.status == 200 {
        AfterDone(delays, Some(res.body), attempt + 1);
        return Attempted(Some(res.body), attempt + 1, delays);
      } else if res.Reply? && res.status == 429 {
        assert AttemptsFrom(reply, attempt) == Attempted(rest.body, rest.tries, [60 * (attempt + 1)] + rest.delays);
        AfterSleep(delays, 60 * (attempt + 1), rest);
        delays := delays + [60 * (attempt + 1)];
      } else if res.Reply? {
        AfterDone(delays, None, attempt + 1);
        return Attempted(None, attempt + 1, delays);
      } else {
        assert AttemptsFrom(reply, attempt) == Attempted(rest.body, rest.tries, [5] + rest.delays);
        AfterSleep(delays, 5, rest);
        delays := delays + [5];
      }
      attempt := attempt + 1;
    }
    AfterDone(delays, None, 3);
    return Attempted(None, 3, delays);
  }

  /**
   * At most three requests: every attempt before the last was a raised call or a 429; a body is
   * returned only from a 200; without a body, either all three attempts were used or the last one
   * got a status other than 200 and 429.
   */
  lemma {:induction false} AttemptsBound(reply: nat -> Reply, k: nat)
    requires k <= 3
    ensures var a := AttemptsFrom(reply, k);
      && k <= a.tries <= 3
      && (k < 3 ==> k < a.tries)
      && (forall j :: k <= j < a.tries - 1 ==> Retryable(reply(j)))
      && (a.body.Some? ==> reply(a.tries - 1).Reply? && reply(a.tries - 1).status == 200 && reply(a.tries - 1).body == a.body.value)
      && (a.body.None? && a.tries < 3 ==> !Retryable(reply(a.tries - 1)) && reply(a.tries - 1).status != 200)
    decreases 3 - k
  {
    if k < 3 && Retryable(reply(k)) {
      AttemptsBound(reply, k + 1);
    }
  }

  /**
   * The sleeps: one per raised call or 429 among the attempts made, in order, 5 s after a raised
   * call and `60 * (k + 1)` s after a 429 on attempt `k`.
   */
  lemma {:induction false} AttemptsDelays(reply: nat -> Reply, k: nat)
    requires k <= 3
    ensures var a := AttemptsFrom(reply, k);
      && k + |a.delays| <= a.tries
      && (forall j :: 0 <= j < |a.delays| ==> a.delays[j] == Backoff(reply(k + j), k + j))
      && (k < 3 ==> (k + |a.delays| == a.tries <==> Retryable(reply(a.tries - 1))))
    decreases 3 - k
  {
    if k < 3 && Retryable(reply(k)) {
      AttemptsDelays(reply, k + 1);
      AttemptsBound(reply, k + 1);
    }
  }

  // ---------------------------------------------------------------------------------------------
  // Deals

  /** The nested objects `_flatten_deal` never copies as they are. */
  predicate Relational(k: string) {
    k in {"campaign", "contacts", "deal_custom_fields", "deal_lost_reason", "deal_products",
          "deal_source", "deal_stage", "organization", "user"}
  }

  /** The five renamed keys. */
  function Renamed(k: string): Option<string> {
    if k == "id" then Some("deal_id")
    else if k == "name" then Some("deal_name")
    else if k == "amount_total" then Some("deal_amount_total")
    else if k == "created_at" then Some("deal_created_at")
    else if k == "updated_at" then Some("deal_updated_at")
    else None
  }

  /** Where the first loop stores a top-level member: its new name, or its normalised name. */
  function PlainColumn(k: string): string {
    match Renamed(k)
    case Some(n) => n
    case None => NormalizeName(JStr(k))
  }

  predicate Copied(f: Field) {
    Renamed(f.key).Some? || !Relational(f.key)
  }

  function PlainEntry(f: Field): Field {
    Field(PlainColumn(f.key), f.val)
  }

  function PlainEntries(its: seq<Field>): seq<Field> {
    Map(Filter(its, Copied), PlainEntry)
  }

  /** The members of a value read as a dict; a value that is not an object has none. */
  function Members(v: Json): seq<Field> {
    if v.JObj? then Items(v.fields) else []
  }

  /** The sub-fields taken from the stage, organization, user and source objects when they are truthy. */
  function RelationalEntries(deal: Json): seq<Field> {
    var stage := At(deal, "deal_stage");
    var org := At(deal, "organization");
    var user := At(deal, "user");
    var source := At(deal, "deal_source");
    RelatedFields(Truthy(stage), At(stage, "name"), At(stage, "id"), Truthy(org), At(org, "name"),
      Truthy(user), At(user, "name"), Truthy(source), At(source, "name"))
  }

  /** The relational block given whether each related object is truthy and the values read from it. */
  function RelatedFields(hasStage: bool, stageName: Json, stageId: Json, hasOrg: bool, orgName: Json,
                         hasUser: bool, userName: Json, hasSource: bool, sourceName: Json): seq<Field> {
    (if hasStage then [Field("deal_stage_name", stageName), Field("deal_stage_id", stageId)] else [])
      + (if hasOrg then [Field("organization_name", orgName)] else [])
      + (if hasUser then [Field("user_name", userName)] else [])
      + (if hasSource then [Field("deal_source_name", sourceName)] else [])
  }

  /** The normalised label of a custom field entry, `cf.get('custom_field', {}).get('label', '')`. */
  function CustomLabel(cf: Json): string {
    NormalizeName(GetOr(GetOr(cf, "custom_field", JObj([])), "label", JStr("")))
  }

  predicate Labelled(cf: Json) {
    CustomLabel(cf) != ""
  }

  function CustomEntry(cf: Json): Field {
    Field(CustomLabel(cf), At(cf, "value"))
  }

  function CustomEntries(deal: Json): seq<Field> {
    Map(Filter(Elems(GetOr(deal, "deal_custom_fields", JList([]))), Labelled), CustomEntry)
  }

  /** Every assignment `_flatten_deal` makes, in order. */
  function DealEntries(deal: Json): seq<Field> {
    PlainEntries(Members(deal)) + RelationalEntries(deal) + CustomEntries(deal)
  }

  /** The first loop of `_flatten_deal`: renamed members under their new name, the others bar the relational ones normalised. */
  method CopyMembers(its: seq<Field>) returns (flat: Row)
    ensures flat == ToRow(PlainEntries(its))
  {
    flat := map[];
    var i := 0;
    while i < |its|
      invariant 0 <= i <= |its|
      invariant flat == Assign(map[], PlainEntries(its[..i]))
    {
      var f := its[i];
      MapFilterSnoc(its, Copied, PlainEntry, i);
      assert PlainEntries(its[..i + 1]) == PlainEntries(its[..i]) + (if Copied(f) then [PlainEntry(f)] else []);
      var renamed := Renamed(f.key);
      if renamed.Some? {
        AssignSnoc(map[], PlainEntries(its[..i]), PlainEntry(f));
        flat := flat[renamed.value := f.val];
      } else if !Relational(f.key) {
        AssignSnoc(map[], PlainEntries(its[..i]), PlainEntry(f));
        flat := flat[NormalizeName(JStr(f.key)) := f.val];
      } else {
        assert PlainEntries(its[..i]) + [] == PlainEntries(its[..i]);
      }
      i := i + 1;
    }
    assert its[..i] == its;
  }

  /** The relational block of `_flatten_deal`: the name (and stage id) of each truthy related object. */
  method AddRelational(flat0: Row, deal: Json) returns (flat: Row)
    ensures flat == Assign(flat0, RelationalEntries(deal))
  {
    flat := flat0;
    var stage := At(deal, "deal_stage");
    var org := At(deal, "organization");
    var user := At(deal, "user");
    var source := At(deal, "deal_source");
    var a: seq<Field> := if Truthy(stage) then [Field("deal_stage_name", At(stage, "name")), Field("deal_stage_id", At(stage, "id"))] else [];
    var b: seq<Field> := if Truthy(org) then [Field("organization_name", At(org, "name"))] else [];
    var c: seq<Field> := if Truthy(user) then [Field("user_name", At(user, "name"))] else [];
    var d: seq<Field> := if Truthy(source) then [Field("deal_source_name", At(source, "name"))] else [];
    if Truthy(stage) {
      flat := flat["deal_stage_name" := At(stage, "name")];
      flat := flat["deal_stage_id" := At(stage, "id")];
    }
    assert flat == Assign(flat0, a) by {
      if Truthy(stage) {
        AssignSnoc(flat0, [], a[0]);
        AssignSnoc(flat0, [a[0]], a[1]);
        assert a == [a[0]] + [a[1]];
      }
    }
    if Truthy(org) {
      flat := flat["organization_name" := At(org, "name")];
    }
    AssignAppend(flat0, a, b);
    if Truthy(user) {
      flat := flat["user_name" := At(user, "name")];
    }
    AssignAppend(flat0, a + b, c);
    if Truthy(source) {
      flat := flat["deal_source_name" := At(source, "name")];
    }
    AssignAppend(flat0, a + b + c, d);
  }

  /** The custom-field loop of `_flatten_deal`: each entry with a non-empty normalised label stores its value. */
  method AddCustom(flat0: Row, cfs: seq<Json>) returns (flat: Row)
    ensures flat == Assign(flat0, Map(Filter(cfs, Labelled), CustomEntry))
  {
    flat := flat0;
    var j := 0;
    while j < |cfs|
      invariant 0 <= j <= |cfs|
      invariant flat == Assign(flat0, Map(Filter(cfs[..j], Labelled), CustomEntry))
    {
      var cf := cfs[j];
      MapFilterSnoc(cfs, Labelled, CustomEntry, j);
      var added := Map(Filter(cfs[..j], Labelled), CustomEntry);
      var tag := CustomLabel(cf);
      if tag != "" {
        AssignSnoc(flat0, added, CustomEntry(cf));
        flat := flat[tag := At(cf, "value")];
      } else {
        assert added + [] == added;
      }
      j := j + 1;
    }
    assert cfs[..j] == cfs;
  }

  /** `_flatten_deal`: every assignment it makes, in order, and nothing else. */
  method FlattenDeal(deal: Json) returns (flat: Row)
    ensures flat == DealRow(deal)
  {
    var its := Members(deal);
    flat := CopyMembers(its);
    flat := AddRelational(flat, deal);
    AssignAppend(map[], PlainEntries(its), RelationalEntries(deal));
    flat := AddCustom(flat, Elems(GetOr(deal, "deal_custom_fields", JList([]))));
    AssignAppend(map[], PlainEntries(its) + RelationalEntries(deal), CustomEntries(deal));
  }

  /**
   * The first loop never stores a relational object: every plain column comes from a member that
   * is renamed (under its new name) or is not one of the nine relational keys (under its
   * normalised name), and every such member gives one.
   */
  lemma PlainEntriesFrom(its: seq<Field>)
    ensures forall e :: e in PlainEntries(its) ==>
      exists f :: f in its && (Renamed(f.key).Some? || !Relational(f.key)) && e == PlainEntry(f)
    ensures forall f :: f in its && Copied(f) ==> PlainEntry(f) in PlainEntries(its)
  {
    var sel := Filter(its, Copied);
    var es := PlainEntries(its);
    FilterMembers(its, Copied);
    forall e | e in es
      ensures exists f :: f in its && (Renamed(f.key).Some? || !Relational(f.key)) && e == PlainEntry(f)
    {
      var i :| 0 <= i < |es| && es[i] == e;
      assert sel[i] in its && Copied(sel[i]);
    }
    forall f | f in its && Copied(f) ensures PlainEntry(f) in es {
      var i :| 0 <= i < |its| && its[i] == f;
      var j :| 0 <= j < |sel| && sel[j] == f;
      assert es[j] == PlainEntry(f);
    }
  }

  /** Looking a key up in four runs of members: the last run that holds it wins. */
  lemma LookupFour(a: seq<Field>, b: seq<Field>, c: seq<Field>, d: seq<Field>, k: string)
    ensures Lookup(a + b + c + d, k) ==
      if Lookup(d, k).Some? then Lookup(d, k) else if Lookup(c, k).Some? then Lookup(c, k)
      else if Lookup(b, k).Some? then Lookup(b, k) else Lookup(a, k)
  {
    LookupAppend(a + b + c, d, k);
    LookupAppend(a + b, c, k);
    LookupAppend(a, b, k);
  }

  lemma OptionalOne(has: bool, f: Field, k: string)
    ensures Lookup(if has then [f] else [], k) == if has && f.key == k then Some(f.val) else None
  {
    if has { LookupOne(f, k); }
  }

  lemma OptionalPair(has: bool, x: Field, y: Field, k: string)
    ensures Lookup(if has then [x, y] else [], k) ==
      if has && y.key == k then Some(y.val) else if has && x.key == k then Some(x.val) else None
  {
    if has { LookupPair(x, y, k); }
  }

  lemma LookupPair(x: Field, y: Field, k: string)
    ensures Lookup([x, y], k) == if y.key == k then Some(y.val) else if x.key == k then Some(x.val) else None
  {
    assert [x, y] == [x] + [y];
    LookupSnoc([x], y, k);
    LookupSnoc([], x, k);
    assert [] + [x] == [x];
  }

  lemma LookupOne(f: Field, k: string)
    ensures Lookup([f], k) == if f.key == k then Some(f.val) else None
  {
    LookupSnoc([], f, k);
    assert [] + [f] == [f];
  }

  /** Four optional runs of members: a pair, then three single members. */
  function Runs(h1: bool, f1: Field, f2: Field, h3: bool, f3: Field, h4: bool, f4: Field, h5: bool, f5: Field): seq<Field> {
    (if h1 then [f1, f2] else []) + (if h3 then [f3] else []) + (if h4 then [f4] else []) + (if h5 then [f5] else [])
  }

  /** Looking a key up in the runs: the last present member with that key wins. */
  lemma RunsLookup(h1: bool, f1: Field, f2: Field, h3: bool, f3: Field, h4: bool, f4: Field, h5: bool, f5: Field, k: string)
    ensures Lookup(Runs(h1, f1, f2, h3, f3, h4, f4, h5, f5), k) ==
      if h5 && f5.key == k then Some(f5.val)
      else if h4 && f4.key == k then Some(f4.val)
      else if h3 && f3.key == k then Some(f3.val)
      else if h1 && f2.key == k then Some(f2.val)
      else if h1 && f1.key == k then Some(f1.val)
      else None
  {
    OptionalPair(h1, f1, f2, k);
    OptionalOne(h3, f3, k);
    OptionalOne(h4, f4, k);
    OptionalOne(h5, f5, k);
    LookupFour(if h1 then [f1, f2] else [], if h3 then [f3] else [], if h4 then [f4] else [], if h5 then [f5] else [], k);
  }

  /**
   * The relational block of a deal stores the stage's name and id when the stage is truthy, and the
   * name of the organization, the user and the source when each is truthy; otherwise it leaves the
   * column out.
   */
  lemma RelationalLookup(deal: Json)
    ensures var es := RelationalEntries(deal); var stage := At(deal, "deal_stage");
      && Lookup(es, "deal_stage_name") == (if Truthy(stage) then Some(At(stage, "name")) else None)
      && Lookup(es, "deal_stage_id") == (if Truthy(stage) then Some(At(stage, "id")) else None)
    ensures var es := RelationalEntries(deal); var org := At(deal, "organization");
      Lookup(es, "organization_name") == (if Truthy(org) then Some(At(org, "name")) else None)
    ensures var es := RelationalEntries(deal); var user := At(deal, "user");
      Lookup(es, "user_name") == (if Truthy(user) then Some(At(user, "name")) else None)
    ensures var es := RelationalEntries(deal); var source := At(deal, "deal_source");
      Lookup(es, "deal_source_name") == (if Truthy(source) then Some(At(source, "name")) else None)
  {
    var stage := At(deal, "deal_stage");
    var org := At(deal, "organization");
    var user := At(deal, "user");
    var source := At(deal, "deal_source");
    var h1, h3, h4, h5 := Truthy(stage), Truthy(org), Truthy(user), Truthy(source);
    var f1, f2 := Field("deal_stage_name", At(stage, "name")), Field("deal_stage_id", At(stage, "id"));
    var f3, f4, f5 := Field("organization_name", At(org, "name")), Field("user_name", At(user, "name")), Field("deal_source_name", At(source, "name"));
    assert RelationalEntries(deal) == Runs(h1, f1, f2, h3, f3, h4, f4, h5, f5);
    RunsLookup(h1, f1, f2, h3, f3, h4, f4, h5, f5, f1.key);
    RunsLookup(h1, f1, f2, h3, f3, h4, f4, h5, f5, f2.key);
    RunsLookup(h1, f1, f2, h3, f3, h4, f4, h5, f5, f3.key);
    RunsLookup(h1, f1, f2, h3, f3, h4, f4, h5, f5, f4.key);
    RunsLookup(h1, f1, f2, h3, f3, h4, f4, h5, f5, f5.key);
  }

  /** A custom field whose label normalises to "" adds no column; every other one adds one under its label. */
  lemma CustomEntriesFrom(deal: Json)
    ensures forall e :: e in CustomEntries(deal) ==> e.key != ""
    ensures forall cf :: cf in Elems(GetOr(deal, "deal_custom_fields", JList([]))) && CustomLabel(cf) != "" ==>
      Field(CustomLabel(cf), At(cf, "value")) in CustomEntries(deal)
  {
    var cfs := Elems(GetOr(deal, "deal_custom_fields", JList([])));
    var sel := Filter(cfs, Labelled);
    FilterMembers(cfs, Labelled);
    forall e | e in CustomEntries(deal) ensures e.key != "" {
      var i :| 0 <= i < |sel| && CustomEntries(deal)[i] == e;
      assert Labelled(sel[i]);
    }
    forall cf | cf in cfs && CustomLabel(cf) != "" ensures CustomEntry(cf) in CustomEntries(deal) {
      var i :| 0 <= i < |cfs| && cfs[i] == cf;
      assert Labelled(cfs[i]);
      var j :| 0 <= j < |sel| && sel[j] == cf;
      assert CustomEntries(deal)[j] == CustomEntry(cf);
    }
  }

  /** What `_flatten_deal` returns for one deal. */
  function DealRow(deal: Json): Row {
    ToRow(DealEntries(deal))
  }

  /** The flattened deals, in order. */
  function DealRows(ds: seq<Json>): seq<Row> {
    Map(ds, DealRow)
  }

  /**
   * What one deals page makes of the page loop. A falsy body and a falsy `deals` stop it. The
   * loop raises where the source would: `data.get` on a body that is not an object, and the `for`
   * loop over a `deals` that is a number or boolean. Otherwise the page keeps what the `for` loop
   * visits, which is also what `len` counts.
   */
  function DealsPage(data: Option<Json>): (p: ShortPage)
    ensures p.Records? <==> (data.Some? && data.value.JObj? && Truthy(data.value)
      && Truthy(At(data.value, "deals")) && Extended(At(data.value, "deals")).Some?)
    ensures p.Records? ==> Extended(At(data.value, "deals")) == Some(p.records)
    ensures p.Raises? <==> (data.Some? && Truthy(data.value)
      && (!data.value.JObj? || (Truthy(At(data.value, "deals")) && Extended(At(data.value, "deals")).None?)))
  {
    if data.None? || !Truthy(data.value) then Halt
    else if !data.value.JObj? then Raises
    else if !Truthy(At(data.value, "deals")) then Halt
    else match Extended(At(data.value, "deals"))
      case None => Raises
      case Some(ds) => Records(ds)
  }

  /**
   * The page loop of `extract_deals` from page `page` on, over what `_safe_request` returned for
   * that page and the ones after it: a page that stops it is not kept, one that raises ends it
   * `Crashed`, a page of fewer than 200 deals ends it after keeping them.
   */
  function DealsRun(results: seq<Option<Json>>, page: int): Fetched<int> {
    ShortRun(Map(results, DealsPage), page, 1, 200)
  }

  /** The inner loop of `extract_deals`: `_flatten_deal` on every deal of a page, in order. */
  method FlattenDeals(ds: seq<Json>) returns (rows: seq<Row>)
    ensures rows == DealRows(ds)
  {
    rows := [];
    var j := 0;
    while j < |ds|
      invariant 0 <= j <= |ds|
      invariant rows == DealRows(ds[..j])
    {
      var flat := FlattenDeal(ds[j]);
      assert ds[..j + 1] == ds[..j] + [ds[j]];
      MapSnoc(ds[..j], ds[j], DealRow);
      rows := rows + [flat];
      j := j + 1;
    }
    assert ds[..j] == ds;
  }

  /** `extract_deals`: the flattened deals of every page, and the page numbers requested. */
  method ExtractDeals(results: seq<Option<Json>>) returns (rows: seq<Row>, pages: seq<int>, stop: Stop)
    ensures var f := DealsRun(results, 1);
      pages == f.requests && stop == f.stop && rows == DealRows(f.items)
  {
    ghost var found := Map(results, DealsPage);
    ghost var deals: seq<Json> := [];
    rows, pages := [], [];
    var page := 1;
    var i := 0;
    ResumeEmpty(DealsRun(results, page));
    while i < |results|
      invariant 0 <= i <= |results|
      invariant DealsRun(results, 1) == Resume(deals, pages, ShortRun(found[i..], page, 1, 200))
      invariant rows == DealRows(deals)
    {
      var data := results[i];
      assert found[i..][0] == DealsPage(data) && found[i..][1..] == found[i + 1..];
      assert deals + [] == deals;
      if data.None? || !Truthy(data.value) {
        return rows, pages + [page], Finished;
      }
      if !data.value.JObj? {
        return rows, pages + [page], Crashed;
      }
      if !Truthy(At(data.value, "deals")) {
        return rows, pages + [page], Finished;
      }
      var visited := Extended(At(data.value, "deals"));
      if visited.None? {
        return rows, pages + [page], Crashed;
      }
      var ds := visited.value;
      var flats := FlattenDeals(ds);
      rows := rows + flats;
      MapAppend(deals, ds, DealRow);
      if |ds| < 200 {
        return rows, pages + [page], Finished;
      }
      ResumeThen(deals, pages, ds, page, ShortRun(found[i + 1..], page + 1, 1, 200));
      deals, pages := deals + ds, pages + [page];
      page := page + 1;
      i := i + 1;
    }
    assert found[i..] == [];
    assert deals + [] == deals;
    return rows, pages, OutOfReplies;
  }

  /**
   * The deal pages: requested as 1, 2, … with one request per page result at most; every page
   * but the last was kept and held 200 deals or more; the loop crashed exactly when the last page
   * raised, and otherwise finished on a page that stopped it or was short, unless the supply ran
   * out; the deals are the pages joined in order.
   */
  lemma DealsPaging(results: seq<Option<Json>>)
    ensures var f := DealsRun(results, 1); var n := |f.requests|;
      && n <= |results|
      && (forall k :: 0 <= k < n ==> f.requests[k] == 1 + k)
      && (forall k :: 0 <= k < n - 1 ==> DealsPage(results[k]).Records? && |DealsPage(results[k]).records| >= 200)
      && (f.stop.Finished? ==> (n > 0
            && (DealsPage(results[n - 1]).Halt? || (DealsPage(results[n - 1]).Records? && |DealsPage(results[n - 1]).records| < 200))))
      && (f.stop.Crashed? <==> n > 0 && DealsPage(results[n - 1]).Raises?)
      && !f.stop.RequestFailed?
      && (f.stop.OutOfReplies? ==> n == |results|)
      && f.items == PagesOf(Map(results, DealsPage), n, PageKept)
  {
    ShortPaging(Map(results, DealsPage), 1, 1, 200);
    ShortItems(Map(results, DealsPage), 1, 1, 200);
  }

  /** A body that is a list makes `data.get` raise, which ends the extraction. */
  lemma ListBodyRaises(rest: seq<Option<Json>>)
    ensures DealsRun([Some(JList([JNull]))] + rest, 1) == Fetched([], [1], Crashed)
  {
    assert Map([Some(JList([JNull]))] + rest, DealsPage)[0] == Raises;
  }

  // ---------------------------------------------------------------------------------------------
  // Stages

  /** One stage row. */
  function StageRow(p: Json, s: Json): Row {
    map["pipeline_id" := At(p, "id"), "pipeline_name" := At(p, "name"),
        "stage_id" := At(s, "id"), "stage_name" := At(s, "name"), "stage_order" := At(s, "order")]
  }

  /** The stages `_safe_request` gave for one pipeline, when the body and its `deal_stages` are truthy. */
  function StagesOf(stages: Option<Json>): seq<Json> {
    if stages.Some? && Truthy(stages.value) && Truthy(At(stages.value, "deal_stages"))
    then Elems(At(stages.value, "deal_stages")) else []
  }

  /** The rows of one pipeline: one per stage, in order. */
  function PipelineRows(p: Json, ss: seq<Json>): (rows: seq<Row>)
    ensures |rows| == |ss|
  {
    seq(|ss|, k requires 0 <= k < |ss| => StageRow(p, ss[k]))
  }

  /** The pipelines iterated: those of a truthy `_safe_request` result. */
  function PipelinesOf(pipelines: Option<Json>): seq<Json> {
    if pipelines.Some? && Truthy(pipelines.value) then Elems(pipelines.value) else []
  }

  /** The stage lists of the pipelines, where `stagesOf(i)` is what the stage request of pipeline `i` gave. */
  function StageLists(ps: seq<Json>, stagesOf: nat -> Option<Json>): (st: seq<seq<Json>>)
    ensures |st| == |ps|
  {
    seq(|ps|, i requires 0 <= i < |ps| => StagesOf(stagesOf(i)))
  }

  /** The rows of the first `n` pipelines, given each pipeline's stage list. */
  function StageRows(ps: seq<Json>, st: seq<seq<Json>>, n: nat): seq<Row>
    requires n <= |ps| && n <= |st|
  {
    if n == 0 then [] else StageRows(ps, st, n - 1) + PipelineRows(ps[n - 1], st[n - 1])
  }

  /** The id a stage request is made for. */
  function PipelineId(p: Json): Json {
    At(p, "id")
  }

  /**
   * `extract_stages`: one stage request per pipeline, with that pipeline's id, and the rows of
   * every pipeline in order.
   */
  method ExtractStages(pipelines: Option<Json>, stagesOf: nat -> Option<Json>) returns (rows: seq<Row>, requested: seq<Json>)
    ensures var ps := PipelinesOf(pipelines);
      && |requested| == |ps| && (forall i :: 0 <= i < |ps| ==> requested[i] == At(ps[i], "id"))
      && rows == StageRows(ps, StageLists(ps, stagesOf), |ps|)
  {
    var ps := PipelinesOf(pipelines);
    rows, requested := [], [];
    var i := 0;
    while i < |ps|
      invariant 0 <= i <= |ps|
      invariant requested == Map(ps[..i], PipelineId)
      invariant rows == StageRows(ps, StageLists(ps, stagesOf), i)
    {
      rows, requested := AddPipeline(ps, stagesOf, i, rows, requested);
      i := i + 1;
    }
    assert ps[..i] == ps;
  }

  /** One pass of the pipeline loop: request the stages of pipeline `i` and add their rows. */
  method AddPipeline(ps: seq<Json>, stagesOf: nat -> Option<Json>, i: nat, rows: seq<Row>, requested: seq<Json>)
    returns (rows2: seq<Row>, requested2: seq<Json>)
    requires i < |ps|
    requires requested == Map(ps[..i], PipelineId)
    requires rows == StageRows(ps, StageLists(ps, stagesOf), i)
    ensures requested2 == Map(ps[..i + 1], PipelineId)
    ensures rows2 == StageRows(ps, StageLists(ps, stagesOf), i + 1)
  {
    var p := ps[i];
    MapPrefixSnoc(ps, PipelineId, i);
    requested2 := requested + [PipelineId(p)];
    var ss := StagesOf(stagesOf(i));
    assert ss == StageLists(ps, stagesOf)[i];
    var prows := StagesRows(p, ss);
    rows2 := rows + prows;
  }

  /** The inner loop of `extract_stages`: one row per stage of a pipeline. */
  method StagesRows(p: Json, ss: seq<Json>) returns (rows: seq<Row>)
    ensures rows == PipelineRows(p, ss)
  {
    rows := [];
    var j := 0;
    while j < |ss|
      invariant 0 <= j <= |ss|
      invariant rows == PipelineRows(p, ss[..j])
    {
      assert PipelineRows(p, ss[..j + 1]) == PipelineRows(p, ss[..j]) + [StageRow(p, ss[j])];
      rows := rows + [StageRow(p, ss[j])];
      j := j + 1;
    }
    assert ss[..j] == ss;
  }

  /**
   * Exactly one row per stage per pipeline: the rows of pipeline `i` sit together, after those
   * of the pipelines before it, and each carries that pipeline's id and name with its stage.
   */
  lemma {:induction false} StageRowsLayout(ps: seq<Json>, st: seq<seq<Json>>, n: nat, i: nat, k: nat)
    requires i < n <= |ps| && n <= |st|
    requires k < |st[i]|
    ensures |StageRows(ps, st, i)| + k < |StageRows(ps, st, n)|
    ensures StageRows(ps, st, n)[|StageRows(ps, st, i)| + k] == StageRow(ps[i], st[i][k])
  {
    var prev := StageRows(ps, st, n - 1);
    var last := PipelineRows(ps[n - 1], st[n - 1]);
    assert StageRows(ps, st, n) == prev + last;
    if i < n - 1 {
      StageRowsLayout(ps, st, n - 1, i, k);
    } else {
      assert last[k] == StageRow(ps[i], st[i][k]);
    }
  }

  /** The two tables `extract_all` returns. */
  datatype Tables = Tables(deals: seq<Row>, stages: seq<Row>)

  /**
   * `extract_all(start_date, end_date)`: the deals table, then the stages table; Err when the
   * deals loop raises, which ends the call before the stages are requested.
   */
  method ExtractAll(results: seq<Option<Json>>, pipelines: Option<Json>, stagesOf: nat -> Option<Json>)
    returns (r: Result<Tables>)
    ensures r.Ok? <==> !DealsRun(results, 1).stop.Crashed?
    ensures r.Ok? ==> r.value.deals == DealRows(DealsRun(results, 1).items)
    ensures var ps := PipelinesOf(pipelines); r.Ok? ==> r.value.stages == StageRows(ps, StageLists(ps, stagesOf), |ps|)
  {
    var deals, pages, stop := ExtractDeals(results);
    if stop.Crashed? {
      return Err("the deals loop raised");
    }
    var stages, requested := ExtractStages(pipelines, stagesOf);
    return Ok(Tables(deals, stages));
  }

  /** The row count is the sum of the stage counts of the pipelines. */
  function StageCount(st: seq<seq<Json>>, n: nat): nat
    requires n <= |st|
  {
    if n == 0 then 0 else StageCount(st, n - 1) + |st[n - 1]|
  }

  lemma {:induction false} StageRowsCount(ps: seq<Json>, st: seq<seq<Json>>, n: nat)
    requires n <= |ps| && n <= |st|
    ensures |StageRows(ps, st, n)| == StageCount(st, n)
  {
    if n > 0 {
      StageRowsCount(ps, st, n - 1);
    }
  }
}
