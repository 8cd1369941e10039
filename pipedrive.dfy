/**
 * The Pipedrive connector: column-name and text normalisation, the custom-field hash to name and
 * enum code to label resolution, and the v1 (start offset) and v2 (cursor) paging loops.
 */
module Pipedrive {
  import opened Text
  import opened Json
  import opened Http
  import opened Seqs

  // ---------------------------------------------------------------------------------------------
  // Column names

  /** Accent stripping of a whole string: decomposition, then every combining mark dropped. */
  function StripAccents(s: string): string {
    if s == [] then [] else Unaccent(s[0]) + StripAccents(s[1..])
  }

  /** `re.sub(r'[^a-z0-9_]', '', s)`. */
  function KeepNameChars(s: string): (r: string)
    ensures AllNameChars(r)
  {
    if s == [] then []
    else (if IsNameChar(s[0]) then [s[0]] else []) + KeepNameChars(s[1..])
  }

  /** The normaliser's pipeline on a string. */
  function NormStr(s: string): (r: string)
    ensures AllNameChars(r)
  {
    KeepNameChars(ReplaceChar(CollapseSpace(Strip(Lower(StripAccents(s)))), ' ', '_'))
  }

  /** `_normalize_name`: a string is normalised to `[a-z0-9_]*`; any other value becomes `str(name)`. */
  function NormalizeName(name: Json): (r: string)
    ensures name.JStr? ==> AllNameChars(r)
    ensures !name.JStr? ==> r == PyStr(name)
  {
    if name.JStr? then NormStr(name.s) else PyStr(name)
  }

  /** Characters every stage of the pipeline leaves in place. */
  predicate Plain(c: char) {
    IsNameChar(c) || IsSpace(c)
  }

  lemma {:induction false} StripAccentsPlain(s: string)
    requires forall i :: 0 <= i < |s| ==> Plain(s[i])
    ensures StripAccents(s) == s
  {
    if s != [] {
      assert Plain(s[0]);
      StripAccentsPlain(s[1..]);
    }
  }

  lemma LowerPlain(s: string)
    requires forall i :: 0 <= i < |s| ==> Plain(s[i])
    ensures Lower(s) == s
  {
    assert forall i :: 0 <= i < |s| ==> LowerChar(s[i]) == s[i] by {
      forall i | 0 <= i < |s| ensures LowerChar(s[i]) == s[i] {
        assert Plain(s[i]);
      }
    }
  }

  lemma {:induction false} KeepNameCharsId(s: string)
    requires AllNameChars(s)
    ensures KeepNameChars(s) == s
  {
    if s != [] {
      assert IsNameChar(s[0]);
      KeepNameCharsId(s[1..]);
    }
  }

  lemma {:induction false} KeepNameCharsAppend(a: string, b: string)
    ensures KeepNameChars(a + b) == KeepNameChars(a) + KeepNameChars(b)
  {
    if a != [] {
      assert (a + b)[1..] == a[1..] + b;
      KeepNameCharsAppend(a[1..], b);
    } else {
      assert a + b == b;
    }
  }

  lemma NameCharsNoSpace(s: string)
    requires AllNameChars(s)
    ensures NoSpace(s)
  {
    forall i | 0 <= i < |s| ensures !IsSpace(s[i]) {
      assert IsNameChar(s[i]);
    }
  }

  /** On a string made of pipeline-stable characters the pipeline reduces to its last three stages. */
  lemma NormPlain(s: string)
    requires forall i :: 0 <= i < |s| ==> Plain(s[i])
    ensures NormStr(s) == KeepNameChars(ReplaceChar(CollapseSpace(Strip(s)), ' ', '_'))
  {
    StripAccentsPlain(s);
    LowerPlain(s);
  }

  /** Normalising a normalised name changes nothing. */
  lemma NormalizeIdempotent(s: string)
    ensures NormalizeName(JStr(NormalizeName(JStr(s)))) == NormalizeName(JStr(s))
  {
    var t := NormStr(s);
    assert forall i :: 0 <= i < |t| ==> Plain(t[i]);
    NormPlain(t);
    NameCharsNoSpace(t);
    NoSpaceStrip(t);
    CollapseNoSpace(t);
    var u := ReplaceChar(t, ' ', '_');
    assert u == t by {
      forall i | 0 <= i < |t| ensures t[i] != ' ' { assert IsNameChar(t[i]); }
    }
    KeepNameCharsId(t);
  }

  /** Words separated by the given whitespace runs. */
  function Interleave(words: seq<string>, gaps: seq<string>): string
    requires |words| >= 1 && |gaps| == |words| - 1
  {
    if |words| == 1 then words[0] else words[0] + gaps[0] + Interleave(words[1..], gaps[1..])
  }

  predicate Word(w: string) {
    w != [] && AllNameChars(w)
  }

  predicate Blank(gap: string) {
    gap != [] && AllSpace(gap)
  }

  lemma {:induction false} InterleavePlain(words: seq<string>, gaps: seq<string>)
    requires |words| >= 1 && |gaps| == |words| - 1
    requires forall i :: 0 <= i < |words| ==> Word(words[i])
    requires forall i :: 0 <= i < |gaps| ==> Blank(gaps[i])
    ensures var s := Interleave(words, gaps);
      && (forall i :: 0 <= i < |s| ==> Plain(s[i]))
      && s != [] && !IsSpace(s[0]) && !IsSpace(s[|s| - 1])
  {
    assert Word(words[0]) && IsNameChar(words[0][0]);
    if |words| > 1 {
      InterleavePlain(words[1..], gaps[1..]);
      var w, g, rest := words[0], gaps[0], Interleave(words[1..], gaps[1..]);
      assert Blank(g);
      var s := w + g + rest;
      forall i | 0 <= i < |s| ensures Plain(s[i]) {
        if i < |w| { assert s[i] == w[i]; }
        else if i < |w| + |g| { assert s[i] == g[i - |w|]; }
        else { assert s[i] == rest[i - |w| - |g|]; }
      }
      assert s[|s| - 1] == rest[|rest| - 1];
    } else {
      assert IsNameChar(words[0][|words[0]| - 1]);
    }
  }

  lemma {:induction false} CollapseInterleave(words: seq<string>, gaps: seq<string>)
    requires |words| >= 1 && |gaps| == |words| - 1
    requires forall i :: 0 <= i < |words| ==> Word(words[i])
    requires forall i :: 0 <= i < |gaps| ==> Blank(gaps[i])
    ensures CollapseSpace(Interleave(words, gaps)) == Join(words, ' ')
  {
    assert Word(words[0]);
    NameCharsNoSpace(words[0]);
    if |words| == 1 {
      CollapseNoSpace(words[0]);
    } else {
      var rest := Interleave(words[1..], gaps[1..]);
      InterleavePlain(words[1..], gaps[1..]);
      assert Blank(gaps[0]);
      CollapseWordGap(words[0], gaps[0], rest);
      CollapseInterleave(words[1..], gaps[1..]);
    }
  }

  lemma {:induction false} UnderscoreJoin(words: seq<string>)
    requires |words| >= 1
    requires forall i :: 0 <= i < |words| ==> Word(words[i])
    ensures KeepNameChars(ReplaceChar(Join(words, ' '), ' ', '_')) == Join(words, '_')
  {
    assert Word(words[0]);
    if |words| == 1 {
      assert ReplaceChar(words[0], ' ', '_') == words[0] by {
        forall i | 0 <= i < |words[0]| ensures words[0][i] != ' ' { assert IsNameChar(words[0][i]); }
      }
      KeepNameCharsId(words[0]);
    } else {
      UnderscoreJoin(words[1..]);
      var w, tail := words[0], Join(words[1..], ' ');
      var s := w + [' '] + tail;
      assert ReplaceChar(s, ' ', '_') == w + ['_'] + ReplaceChar(tail, ' ', '_') by {
        forall i | 0 <= i < |w| ensures w[i] != ' ' { assert IsNameChar(w[i]); }
      }
      KeepNameCharsAppend(w + ['_'], ReplaceChar(tail, ' ', '_'));
      KeepNameCharsAppend(w, ['_']);
      KeepNameCharsId(w);
    }
  }

  /**
   * Words of `[a-z0-9_]` separated by runs of whitespace, with optional whitespace around them,
   * normalise to the words joined by single underscores: no run survives and nothing is left at
   * either end.
   */
  lemma NormalizeWords(lead: string, words: seq<string>, gaps: seq<string>, trail: string)
    requires |words| >= 1 && |gaps| == |words| - 1
    requires forall i :: 0 <= i < |words| ==> Word(words[i])
    requires forall i :: 0 <= i < |gaps| ==> Blank(gaps[i])
    requires AllSpace(lead) && AllSpace(trail)
    ensures NormalizeName(JStr(lead + Interleave(words, gaps) + trail)) == Join(words, '_')
  {
    var core := Interleave(words, gaps);
    InterleavePlain(words, gaps);
    var s := lead + core + trail;
    SurroundedPlain(lead, core, trail);
    NormPlain(s);
    StripSurrounded(lead, core, trail);
    CollapseInterleave(words, gaps);
    UnderscoreJoin(words);
  }

  lemma SurroundedPlain(lead: string, core: string, trail: string)
    requires AllSpace(lead) && AllSpace(trail)
    requires forall i :: 0 <= i < |core| ==> Plain(core[i])
    ensures var s := lead + core + trail; forall i :: 0 <= i < |s| ==> Plain(s[i])
  {
    var s := lead + core + trail;
    forall i | 0 <= i < |s| ensures Plain(s[i]) {
      if i < |lead| { assert s[i] == lead[i]; }
      else if i < |lead| + |core| { assert s[i] == core[i - |lead|]; }
      else { assert s[i] == trail[i - |lead| - |core|]; }
    }
  }

  lemma StripSurrounded(lead: string, core: string, trail: string)
    requires AllSpace(lead) && AllSpace(trail)
    requires core != [] && !IsSpace(core[0]) && !IsSpace(core[|core| - 1])
    ensures Strip(lead + core + trail) == core
  {
    assert lead + core + trail == lead + (core + trail);
    assert (core + trail)[0] == core[0];
    LStripSpaces(lead, core + trail);
    RStripSpaces(core, trail);
  }

  // ---------------------------------------------------------------------------------------------
  // Text cleaning

  /** Drops the newlines at the front. */
  function DropNewlines(s: string): (r: string)
    ensures |r| <= |s|
    ensures r == [] || r[0] != '\n'
    ensures s != [] && s[0] == '\n' ==> |r| < |s|
  {
    if s != [] && s[0] == '\n' then DropNewlines(s[1..]) else s
  }

  /** `re.sub(r'\r?\n+', ' ', s)`: each line break run, with an optional carriage return before it, becomes one space. */
  function ReplaceNewlines(s: string): (r: string)
    ensures forall i :: 0 <= i < |r| ==> r[i] != '\n'
    decreases |s|
  {
    if s == [] then []
    else if s[0] == '\n' then [' '] + ReplaceNewlines(DropNewlines(s))
    else if s[0] == '\r' && |s| > 1 && s[1] == '\n' then [' '] + ReplaceNewlines(DropNewlines(s[1..]))
    else [s[0]] + ReplaceNewlines(s[1..])
  }

  /**
   * `_clean_text_data` on a string: the result contains no newline (the only whitespace left is
   * `' '`), starts and ends with a non-space, and never has two whitespace characters in a row.
   */
  function CleanStr(s: string): (r: string)
    ensures forall i :: 0 <= i < |r| ==> r[i] != '\n' && r[i] != '\r'
    ensures forall i :: 0 <= i < |r| && IsSpace(r[i]) ==> r[i] == ' '
    ensures r == [] || (!IsSpace(r[0]) && !IsSpace(r[|r| - 1]))
    ensures forall i :: 0 <= i < |r| - 1 ==> !(IsSpace(r[i]) && IsSpace(r[i + 1]))
  {
    var r := CollapseSpace(Strip(ReplaceNewlines(s)));
    CollapseShape(Strip(ReplaceNewlines(s)));
    assert forall i :: 0 <= i < |r| ==> r[i] != '\n' && r[i] != '\r' by {
      forall i | 0 <= i < |r| ensures r[i] != '\n' && r[i] != '\r' {
        if r[i] == '\n' || r[i] == '\r' { assert IsSpace(r[i]); }
      }
    }
    r
  }

  /** `_clean_text_data`: strings are cleaned, every other value is returned unchanged. */
  function CleanText(v: Json): (r: Json)
    ensures !v.JStr? ==> r == v
    ensures v.JStr? ==> r == JStr(CleanStr(v.s))
  {
    if v.JStr? then JStr(CleanStr(v.s)) else v
  }

  // ---------------------------------------------------------------------------------------------
  // Field mappings

  /** Field key (any hashable JSON value) to normalised field name. */
  type FieldMap = map<Json, string>

  /** Field key to the table from `str(option id)` to option label. */
  type OptionsMap = map<Json, map<string, Json>>

  /** The field's key; `field['key']` and the dict assignment it feeds require a present, hashable key. */
  function KeyOf(field: Json): Json {
    At(field, "key")
  }

  function NameOf(field: Json): string {
    NormalizeName(GetOr(field, "name", JStr("")))
  }

  /** `field.get('field_type') == 'enum' and field.get('options')`. */
  predicate IsEnum(field: Json) {
    At(field, "field_type") == JStr("enum") && Truthy(At(field, "options"))
  }

  predicate OptionOk(opt: Json) {
    opt.JObj? && Has(opt, "id") && Has(opt, "label")
  }

  predicate OptionsOk(opts: Json) {
    opts.JList? && forall j :: 0 <= j < |opts.items| ==> OptionOk(opts.items[j])
  }

  /**
   * What `_create_field_mappings` needs of a field to get through without raising: a dict with a
   * hashable `key`, and for an enum field an option list whose entries all carry `id` and `label`.
   */
  predicate FieldOk(field: Json) {
    && field.JObj?
    && Has(field, "key") && IsScalar(KeyOf(field))
    && (IsEnum(field) ==> OptionsOk(At(field, "options")))
  }

  /** `{str(opt['id']): opt['label'] for opt in options}`. */
  function OptionLabels(opts: seq<Json>): map<string, Json> {
    if opts == [] then map[]
    else
      var o := opts[|opts| - 1];
      OptionLabels(opts[..|opts| - 1])[PyStr(At(o, "id")) := At(o, "label")]
  }

  /** The two maps after the first `n` fields. */
  function FieldMapOf(fields: seq<Json>): FieldMap {
    if fields == [] then map[]
    else
      var f := fields[|fields| - 1];
      FieldMapOf(fields[..|fields| - 1])[KeyOf(f) := NameOf(f)]
  }

  function OptionsMapOf(fields: seq<Json>): OptionsMap {
    if fields == [] then map[]
    else
      var f := fields[|fields| - 1];
      var om := OptionsMapOf(fields[..|fields| - 1]);
      if IsEnum(f) then om[KeyOf(f) := OptionLabels(Elems(At(f, "options")))] else om
  }

  /** The option-table comprehension: None when some option lacks `id` or `label` (the source raises). */
  method OptionTable(opts: seq<Json>) returns (r: Option<map<string, Json>>)
    ensures r.Some? <==> forall j :: 0 <= j < |opts| ==> OptionOk(opts[j])
    ensures r.Some? ==> r.value == OptionLabels(opts)
  {
    var labels := map[];
    var j := 0;
    while j < |opts|
      invariant 0 <= j <= |opts|
      invariant forall m :: 0 <= m < j ==> OptionOk(opts[m])
      invariant labels == OptionLabels(opts[..j])
    {
      var opt := opts[j];
      assert opts[..j + 1][..j] == opts[..j];
      if !OptionOk(opt) {
        return None;
      }
      labels := labels[PyStr(At(opt, "id")) := At(opt, "label")];
      j := j + 1;
    }
    assert opts[..j] == opts;
    return Some(labels);
  }

  /** One pass of the loop of `_create_field_mappings`; None when the field makes the source raise. */
  method AddField(fm: FieldMap, om: OptionsMap, field: Json) returns (r: Option<(FieldMap, OptionsMap)>)
    ensures r.Some? <==> FieldOk(field)
    ensures r.Some? ==> r.value.0 == fm[KeyOf(field) := NameOf(field)]
    ensures r.Some? ==> r.value.1 == if IsEnum(field) then om[KeyOf(field) := OptionLabels(Elems(At(field, "options")))] else om
  {
    if !field.JObj? || !Has(field, "key") || !IsScalar(KeyOf(field)) {
      return None;
    }
    var fm' := fm[KeyOf(field) := NameOf(field)];
    if !IsEnum(field) {
      return Some((fm', om));
    }
    var opts := At(field, "options");
    if !opts.JList? {
      return None;
    }
    var labels := OptionTable(opts.items);
    if labels.None? {
      return None;
    }
    return Some((fm', om[KeyOf(field) := labels.value]));
  }

  /**
   * `_create_field_mappings`: Err when some field would make the source raise; otherwise
   * the field map and options map built field by field.
   */
  method CreateFieldMappings(fields: seq<Json>) returns (r: Result<(FieldMap, OptionsMap)>)
    ensures r.Ok? <==> forall i :: 0 <= i < |fields| ==> FieldOk(fields[i])
    ensures r.Ok? ==> r.value == (FieldMapOf(fields), OptionsMapOf(fields))
  {
    var fm: FieldMap := map[];
    var om: OptionsMap := map[];
    var i := 0;
    while i < |fields|
      invariant 0 <= i <= |fields|
      invariant forall j :: 0 <= j < i ==> FieldOk(fields[j])
      invariant fm == FieldMapOf(fields[..i]) && om == OptionsMapOf(fields[..i])
    {
      var step := AddField(fm, om, fields[i]);
      if step.None? {
        return Err("field without a hashable 'key', or enum options without 'id' or 'label'");
      }
      MappingsSnoc(fields, i);
      ghost var ok := FieldOk(fields[i]);
      assert ok;
      forall j | 0 <= j < i + 1 ensures FieldOk(fields[j]) {
        if j == i { assert ok; }
      }
      fm, om := step.value.0, step.value.1;
      i := i + 1;
    }
    assert fields[..i] == fields;
    return Ok((fm, om));
  }

  lemma MappingsSnoc(fields: seq<Json>, i: int)
    requires 0 <= i < |fields|
    ensures FieldMapOf(fields[..i + 1]) == FieldMapOf(fields[..i])[KeyOf(fields[i]) := NameOf(fields[i])]
    ensures OptionsMapOf(fields[..i + 1]) == if IsEnum(fields[i])
      then OptionsMapOf(fields[..i])[KeyOf(fields[i]) := OptionLabels(Elems(At(fields[i], "options")))]
      else OptionsMapOf(fields[..i])
  {
    assert fields[..i + 1][..i] == fields[..i];
  }

  /** The field map sends every field key to the normalised name of the last field with that key. */
  lemma {:induction false} FieldMapLast(fields: seq<Json>, i: int)
    requires 0 <= i < |fields|
    requires forall j :: i < j < |fields| ==> KeyOf(fields[j]) != KeyOf(fields[i])
    ensures KeyOf(fields[i]) in FieldMapOf(fields)
    ensures FieldMapOf(fields)[KeyOf(fields[i])] == NameOf(fields[i])
  {
    var n := |fields|;
    var pre, f := fields[..n - 1], fields[n - 1];
    assert FieldMapOf(fields) == FieldMapOf(pre)[KeyOf(f) := NameOf(f)];
    if i < n - 1 {
      assert pre[i] == fields[i];
      assert forall j :: i < j < |pre| ==> KeyOf(pre[j]) != KeyOf(pre[i]) by {
        forall j | i < j < |pre| ensures KeyOf(pre[j]) != KeyOf(pre[i]) {
          assert pre[j] == fields[j];
        }
      }
      FieldMapLast(pre, i);
      assert KeyOf(f) != KeyOf(fields[i]);
    }
  }

  /** The field map has no key that no field carries. */
  lemma {:induction false} FieldMapKeys(fields: seq<Json>, k: Json)
    ensures k in FieldMapOf(fields) <==> exists i :: 0 <= i < |fields| && KeyOf(fields[i]) == k
  {
    var n := |fields|;
    if n > 0 {
      FieldMapKeys(fields[..n - 1], k);
      if k in FieldMapOf(fields[..n - 1]) {
        var i :| 0 <= i < n - 1 && KeyOf(fields[..n - 1][i]) == k;
        assert KeyOf(fields[i]) == k;
      }
      if exists i :: 0 <= i < n && KeyOf(fields[i]) == k {
        var i :| 0 <= i < n && KeyOf(fields[i]) == k;
        if i < n - 1 { assert KeyOf(fields[..n - 1][i]) == k; }
      }
    }
  }

  /** Only enum fields with truthy options get an entry in the options map, and every one of them does. */
  lemma OptionsMapKeys(fields: seq<Json>, k: Json)
    ensures k in OptionsMapOf(fields) <==> exists i :: 0 <= i < |fields| && KeyOf(fields[i]) == k && IsEnum(fields[i])
  {
    if k in OptionsMapOf(fields) {
      var i := OptionsMapSource(fields, k);
    }
    forall i | 0 <= i < |fields| && KeyOf(fields[i]) == k && IsEnum(fields[i]) ensures k in OptionsMapOf(fields) {
      OptionsMapEntry(fields, i);
    }
  }

  /** An options-map key comes from an enum field carrying it. */
  lemma {:induction false} OptionsMapSource(fields: seq<Json>, k: Json) returns (i: int)
    requires k in OptionsMapOf(fields)
    ensures 0 <= i < |fields| && KeyOf(fields[i]) == k && IsEnum(fields[i])
  {
    var n := |fields|;
    var init, f := fields[..n - 1], fields[n - 1];
    if IsEnum(f) && KeyOf(f) == k {
      i := n - 1;
    } else {
      assert k in OptionsMapOf(init);
      i := OptionsMapSource(init, k);
      assert init[i] == fields[i];
    }
  }

  /** Every enum field's key is in the options map. */
  lemma {:induction false} OptionsMapEntry(fields: seq<Json>, i: int)
    requires 0 <= i < |fields| && IsEnum(fields[i])
    ensures KeyOf(fields[i]) in OptionsMapOf(fields)
  {
    var n := |fields|;
    var init := fields[..n - 1];
    if i < n - 1 {
      assert init[i] == fields[i];
      OptionsMapEntry(init, i);
    }
  }

  /** The options of the last enum field with a key are the ones that key resolves through. */
  lemma {:induction false} OptionsMapLast(fields: seq<Json>, i: int)
    requires 0 <= i < |fields| && IsEnum(fields[i])
    requires forall j :: i < j < |fields| && IsEnum(fields[j]) ==> KeyOf(fields[j]) != KeyOf(fields[i])
    ensures KeyOf(fields[i]) in OptionsMapOf(fields)
    ensures OptionsMapOf(fields)[KeyOf(fields[i])] == OptionLabels(Elems(At(fields[i], "options")))
  {
    var n := |fields|;
    if i < n - 1 {
      OptionsMapLast(fields[..n - 1], i);
    }
  }

  /** An option table maps `str(id)` of each option to the label of the last option with that code. */
  lemma {:induction false} OptionLabelsLast(opts: seq<Json>, i: int)
    requires 0 <= i < |opts|
    requires forall j :: i < j < |opts| ==> PyStr(At(opts[j], "id")) != PyStr(At(opts[i], "id"))
    ensures PyStr(At(opts[i], "id")) in OptionLabels(opts)
    ensures OptionLabels(opts)[PyStr(At(opts[i], "id"))] == At(opts[i], "label")
  {
    var n := |opts|;
    if i < n - 1 {
      OptionLabelsLast(opts[..n - 1], i);
    }
  }

  lemma {:induction false} OptionLabelsKeys(opts: seq<Json>, code: string)
    ensures code in OptionLabels(opts) <==> exists i :: 0 <= i < |opts| && PyStr(At(opts[i], "id")) == code
  {
    var n := |opts|;
    if n > 0 {
      OptionLabelsKeys(opts[..n - 1], code);
      if code in OptionLabels(opts[..n - 1]) {
        var i :| 0 <= i < n - 1 && PyStr(At(opts[..n - 1][i], "id")) == code;
        assert PyStr(At(opts[i], "id")) == code;
      }
      if exists i :: 0 <= i < n && PyStr(At(opts[i], "id")) == code {
        var i :| 0 <= i < n && PyStr(At(opts[i], "id")) == code;
        if i < n - 1 { assert PyStr(At(opts[..n - 1][i], "id")) == code; }
      }
    }
  }

  // ---------------------------------------------------------------------------------------------
  // Flattening custom fields

  /** `field_map.get(key, key)`: a key the field map does not know keeps its own name. */
  function ColumnName(fm: FieldMap, key: string): (r: string)
    ensures JStr(key) in fm ==> r == fm[JStr(key)]
    ensures JStr(key) !in fm ==> r == key
  {
    if JStr(key) in fm then fm[JStr(key)] else key
  }

  /**
   * The enum resolution: a value is replaced by its label only when its field has options and
   * `str(value)` is one of their codes; `None` and unknown codes keep the raw value.
   */
  function Resolve(om: OptionsMap, key: string, v: Json): (r: Json)
    ensures (JStr(key) in om && v != JNull && PyStr(v) in om[JStr(key)]) ==> r == om[JStr(key)][PyStr(v)]
    ensures !(JStr(key) in om && v != JNull && PyStr(v) in om[JStr(key)]) ==> r == v
  {
    if JStr(key) in om && v != JNull && PyStr(v) in om[JStr(key)] then om[JStr(key)][PyStr(v)] else v
  }

  /** A top-level member copied as it is: not `custom_fields`, and neither a dict nor a list. */
  predicate Copied(f: Field) {
    f.key != "custom_fields" && IsScalar(f.val)
  }

  function PlainEntry(f: Field): Field {
    Field(f.key, CleanText(f.val))
  }

  function PlainEntries(its: seq<Field>): seq<Field> {
    Map(Filter(its, Copied), PlainEntry)
  }

  function CustomEntry(fm: FieldMap, om: OptionsMap, f: Field): Field {
    Field(ColumnName(fm, f.key), CleanText(Resolve(om, f.key, f.val)))
  }

  function CustomEntries(its: seq<Field>, fm: FieldMap, om: OptionsMap): seq<Field> {
    Map(its, f => CustomEntry(fm, om, f))
  }

  /** `len(k) == 40 and all(c in '0123456789abcdef' for c in str(k).lower())`. */
  predicate IsHashKey(k: string) {
    |k| == 40 && forall i :: 0 <= i < |k| ==> var c := LowerChar(k[i]); IsDigit(c) || 'a' <= c <= 'f'
  }

  /** A root key of a lead that names a custom field: a 40-character hex hash the field map knows. */
  predicate IsLeadKey(fm: FieldMap, f: Field) {
    IsHashKey(f.key) && JStr(f.key) in fm
  }

  function LeadEntries(its: seq<Field>, fm: FieldMap, om: OptionsMap): seq<Field> {
    Map(Filter(its, f => IsLeadKey(fm, f)), f => CustomEntry(fm, om, f))
  }

  /** The custom-field members of an item, when `custom_fields` holds a dict. */
  function CustomFieldsOf(fs: seq<Field>): seq<Field> {
    match Lookup(fs, "custom_fields")
    case Some(JObj(cf)) => Items(cf)
    case _ => []
  }

  /** Every assignment `_flatten_custom_fields` makes for one item, in order. */
  function ItemEntries(fs: seq<Field>, fm: FieldMap, om: OptionsMap, isLead: bool): seq<Field> {
    PlainEntries(Items(fs))
      + CustomEntries(CustomFieldsOf(fs), fm, om)
      + (if isLead then LeadEntries(Items(fs), fm, om) else [])
  }

  /** The flat row of one item. */
  function ItemRow(fs: seq<Field>, fm: FieldMap, om: OptionsMap, isLead: bool): Row {
    ToRow(ItemEntries(fs, fm, om, isLead))
  }

  /** The first loop of `_flatten_custom_fields`: copy the plain members, cleaned. */
  method CopyPlain(its: seq<Field>) returns (row: Row)
    ensures row == ToRow(PlainEntries(its))
  {
    row := map[];
    var i := 0;
    while i < |its|
      invariant 0 <= i <= |its|
      invariant row == Assign(map[], PlainEntries(its[..i]))
    {
      var x := its[i];
      MapFilterSnoc(its, Copied, PlainEntry, i);
      assert PlainEntries(its[..i + 1]) == PlainEntries(its[..i]) + (if Copied(x) then [PlainEntry(x)] else []);
      if x.key != "custom_fields" && IsScalar(x.val) {
        AssignSnoc(map[], PlainEntries(its[..i]), PlainEntry(x));
        row := row[x.key := CleanText(x.val)];
      } else {
        assert PlainEntries(its[..i]) + [] == PlainEntries(its[..i]);
      }
      i := i + 1;
    }
    assert its[..i] == its;
  }

  /** The second loop: each custom field under its mapped name, enum codes resolved, cleaned. */
  method AddCustom(row0: Row, cits: seq<Field>, fm: FieldMap, om: OptionsMap) returns (row: Row)
    ensures row == Assign(row0, CustomEntries(cits, fm, om))
  {
    row := row0;
    var j := 0;
    while j < |cits|
      invariant 0 <= j <= |cits|
      invariant row == Assign(row0, CustomEntries(cits[..j], fm, om))
    {
      var f := cits[j];
      assert CustomEntries(cits[..j + 1], fm, om) == CustomEntries(cits[..j], fm, om) + [CustomEntry(fm, om, f)];
      AssignSnoc(row0, CustomEntries(cits[..j], fm, om), CustomEntry(fm, om, f));
      row := row[ColumnName(fm, f.key) := CleanText(Resolve(om, f.key, f.val))];
      j := j + 1;
    }
    assert cits[..j] == cits;
  }

  /** The third loop, for leads: each known hash key at the root under its mapped name. */
  method AddLead(row0: Row, its: seq<Field>, fm: FieldMap, om: OptionsMap) returns (row: Row)
    ensures row == Assign(row0, LeadEntries(its, fm, om))
  {
    row := row0;
    var k := 0;
    while k < |its|
      invariant 0 <= k <= |its|
      invariant row == Assign(row0, LeadEntries(its[..k], fm, om))
    {
      MapFilterSnoc(its, f => IsLeadKey(fm, f), f => CustomEntry(fm, om, f), k);
      var f := its[k];
      assert LeadEntries(its[..k + 1], fm, om)
        == LeadEntries(its[..k], fm, om) + (if IsLeadKey(fm, f) then [CustomEntry(fm, om, f)] else []);
      if IsHashKey(f.key) && JStr(f.key) in fm {
        AssignSnoc(row0, LeadEntries(its[..k], fm, om), CustomEntry(fm, om, f));
        row := row[fm[JStr(f.key)] := CleanText(Resolve(om, f.key, f.val))];
      } else {
        assert LeadEntries(its[..k], fm, om) + [] == LeadEntries(its[..k], fm, om);
      }
      k := k + 1;
    }
    assert its[..k] == its;
  }

  /** The body of `_flatten_custom_fields` for one item. */
  method FlattenItem(fs: seq<Field>, fm: FieldMap, om: OptionsMap, isLead: bool) returns (row: Row)
    ensures row == ItemRow(fs, fm, om, isLead)
  {
    var its := Items(fs);
    var plain := PlainEntries(its);
    var custom := CustomEntries(CustomFieldsOf(fs), fm, om);
    row := CopyPlain(its);
    row := AddCustom(row, CustomFieldsOf(fs), fm, om);
    AssignAppend(map[], plain, custom);
    if isLead {
      row := AddLead(row, its, fm, om);
      AssignAppend(map[], plain + custom, LeadEntries(its, fm, om));
    } else {
      assert plain + custom + [] == plain + custom;
    }
  }

  /**
   * `_flatten_custom_fields`: one flat row per item, in input order. Err when an item is not a
   * dict (the source's `item.items()` raises).
   */
  method FlattenCustomFields(data: seq<Json>, fm: FieldMap, om: OptionsMap, isLead: bool) returns (r: Result<seq<Row>>)
    ensures r.Ok? <==> forall i :: 0 <= i < |data| ==> data[i].JObj?
    ensures r.Ok? ==> |r.value| == |data|
    ensures r.Ok? ==> forall i :: 0 <= i < |data| ==> r.value[i] == ItemRow(data[i].fields, fm, om, isLead)
  {
    var rows: seq<Row> := [];
    var i := 0;
    while i < |data|
      invariant 0 <= i <= |data|
      invariant forall j :: 0 <= j < i ==> data[j].JObj?
      invariant |rows| == i
      invariant forall j :: 0 <= j < i ==> rows[j] == ItemRow(data[j].fields, fm, om, isLead)
    {
      if !data[i].JObj? {
        return Err("item is not a dict");
      }
      var row := FlattenItem(data[i].fields, fm, om, isLead);
      rows := rows + [row];
      i := i + 1;
    }
    return Ok(rows);
  }

  predicate DistinctKeys(its: seq<Field>) {
    forall a, b :: 0 <= a < b < |its| ==> its[a].key != its[b].key
  }

  lemma {:induction false} PlainLookupDistinct(its: seq<Field>, k: string)
    requires DistinctKeys(its)
    ensures Lookup(PlainEntries(its), k)
      == match Lookup(its, k)
         case Some(v) => if Copied(Field(k, v)) then Some(CleanText(v)) else None
         case None => None
  {
    var n := |its|;
    if n > 0 {
      var pre := its[..n - 1];
      assert DistinctKeys(pre) by {
        forall a, b | 0 <= a < b < |pre| ensures pre[a].key != pre[b].key {
          assert pre[a] == its[a] && pre[b] == its[b];
        }
      }
      PlainLookupDistinct(pre, k);
      MapFilterSnoc(its, Copied, PlainEntry, n - 1);
      assert its[..n] == its;
      var x := its[n - 1];
      assert PlainEntries(its) == PlainEntries(pre) + (if Copied(x) then [PlainEntry(x)] else []);
      LookupSnoc(pre, x, k);
      assert its == pre + [x];
      if x.key == k {
        assert k !in Keys(pre) by {
          forall a | 0 <= a < |pre| ensures pre[a].key != k { assert pre[a] == its[a]; }
        }
        if Copied(x) {
          LookupSnoc(PlainEntries(pre), PlainEntry(x), k);
        }
      } else if Copied(x) {
        LookupSnoc(PlainEntries(pre), PlainEntry(x), k);
      } else {
        assert PlainEntries(its) == PlainEntries(pre);
      }
    }
  }

  /**
   * Which plain columns an item contributes: a top-level key is copied (and cleaned) exactly when
   * it is not `custom_fields` and its value is neither a dict nor a list.
   */
  lemma PlainColumns(fs: seq<Field>, k: string)
    ensures Lookup(PlainEntries(Items(fs)), k)
      == match Lookup(fs, k)
         case Some(v) => if k != "custom_fields" && IsScalar(v) then Some(CleanText(v)) else None
         case None => None
  {
    ItemsDistinct(fs);
    ItemsLookup(fs, k);
    PlainLookupDistinct(Items(fs), k);
  }

  /**
   * A column of the flat row holds the last value assigned to it: a lead hash column over a
   * custom-field column over a plain one. A column none of them names is absent.
   */
  lemma RowColumn(fs: seq<Field>, fm: FieldMap, om: OptionsMap, isLead: bool, k: string)
    ensures var p, c := PlainEntries(Items(fs)), CustomEntries(CustomFieldsOf(fs), fm, om);
      var l := if isLead then LeadEntries(Items(fs), fm, om) else [];
      var row := ItemRow(fs, fm, om, isLead);
      && (k in row <==> Lookup(p, k).Some? || Lookup(c, k).Some? || Lookup(l, k).Some?)
      && (Lookup(l, k).Some? ==> row[k] == Lookup(l, k).value)
      && (Lookup(l, k).None? && Lookup(c, k).Some? ==> row[k] == Lookup(c, k).value)
      && (Lookup(l, k).None? && Lookup(c, k).None? && Lookup(p, k).Some? ==> row[k] == Lookup(p, k).value)
  {
    var p, c := PlainEntries(Items(fs)), CustomEntries(CustomFieldsOf(fs), fm, om);
    var l := if isLead then LeadEntries(Items(fs), fm, om) else [];
    AssignLookup(map[], p + c + l, k);
    LookupAppend(p + c, l, k);
    LookupAppend(p, c, k);
  }

  /**
   * The lead columns come only from root keys that are 40-character hex hashes known to the
   * field map, stored under the mapped name; every such key contributes one.
   */
  lemma LeadEntriesFrom(fs: seq<Field>, fm: FieldMap, om: OptionsMap)
    ensures forall e :: e in LeadEntries(Items(fs), fm, om) ==>
      exists f :: f in Items(fs) && IsHashKey(f.key) && JStr(f.key) in fm
        && e == Field(fm[JStr(f.key)], CleanText(Resolve(om, f.key, f.val)))
    ensures forall f :: f in Items(fs) && IsHashKey(f.key) && JStr(f.key) in fm ==>
      Field(fm[JStr(f.key)], CleanText(Resolve(om, f.key, f.val))) in LeadEntries(Items(fs), fm, om)
  {
    var its := Items(fs);
    var sel := Filter(its, f => IsLeadKey(fm, f));
    var es := LeadEntries(its, fm, om);
    FilterMembers(its, f => IsLeadKey(fm, f));
    forall e | e in es
      ensures exists f :: (f in its && IsHashKey(f.key) && JStr(f.key) in fm
        && e == Field(fm[JStr(f.key)], CleanText(Resolve(om, f.key, f.val))))
    {
      var i :| 0 <= i < |es| && es[i] == e;
      assert sel[i] in its && IsLeadKey(fm, sel[i]);
    }
    forall f | f in its && IsHashKey(f.key) && JStr(f.key) in fm
      ensures Field(fm[JStr(f.key)], CleanText(Resolve(om, f.key, f.val))) in es
    {
      var i :| 0 <= i < |its| && its[i] == f;
      assert IsLeadKey(fm, its[i]);
      var j :| 0 <= j < |sel| && sel[j] == f;
      assert es[j] == CustomEntry(fm, om, f);
    }
  }

  // ---------------------------------------------------------------------------------------------
  // Paging

  /**
   * `data.get('data') or []` handed to `extend`: the records of a page. None when that raises:
   * `.get` on a body that is not an object, or `extend` of a truthy number or boolean.
   */
  function PageRecords(r: Reply): (p: Option<seq<Json>>)
    requires r.Reply?
    ensures !r.body.JObj? ==> p.None?
    ensures r.body.JObj? && !Truthy(At(r.body, "data")) ==> p == Some([])
    ensures r.body.JObj? && Truthy(At(r.body, "data")) ==> p == Extended(At(r.body, "data"))
  {
    if !r.body.JObj? then None
    else if !Truthy(At(r.body, "data")) then Some([])
    else Extended(At(r.body, "data"))
  }

  /** The records a reply adds: none for a request that failed or a page whose reading raised. */
  function PageData(r: Reply): seq<Json> {
    if r.Reply? && PageRecords(r).Some? then PageRecords(r).value else []
  }

  /** `data.get('additional_data', {})`; None when the `.get` that follows raises (it is not an object). */
  function Additional(r: Reply): Option<Json>
    requires r.Reply?
  {
    var d := GetOr(r.body, "additional_data", JObj([]));
    if d.JObj? then Some(d) else None
  }

  /** `.get('pagination', {})` of that; None when it, or the `.get` that follows, raises. */
  function Pagination(r: Reply): Option<Json>
    requires r.Reply?
  {
    match Additional(r)
    case None => None
    case Some(d) =>
      var p := GetOr(d, "pagination", JObj([]));
      if p.JObj? then Some(p) else None
  }

  /** A v1 reply read without raising: the request succeeded, `extend` took the page, and the pagination is a dict. */
  predicate V1Readable(r: Reply) {
    !Failed(r) && PageRecords(r).Some? && Pagination(r).Some?
  }

  predicate MoreItems(r: Reply)
    requires V1Readable(r)
  {
    Truthy(At(Pagination(r).value, "more_items_in_collection"))
  }

  /**
   * `start + 100`: integers and booleans add exactly, a float through `FloatPlus`, a value that is
   * itself the result of a cast or a sum stays symbolic; None when the addition raises TypeError
   * (None, a string, a list, a dict).
   */
  function StartPlus(start: Json): (r: Option<Json>)
    ensures r.None? <==> start.JNull? || start.JStr? || start.JList? || start.JObj?
    ensures start.JInt? ==> r == Some(JInt(start.i + 100))
    ensures start.JFloat? ==> r == Some(FloatPlus(start.repr, 100))
  {
    match start
    case JInt(i) => Some(JInt(i + 100))
    case JBool(b) => Some(JInt(if b then 101 else 100))
    case JFloat(f) => Some(FloatPlus(f, 100))
    case JCast(_, _) => Some(JCast(Plus(100), start))
    case _ => None
  }

  /**
   * `pagination.get('next_start', start + 100)`. The default is evaluated first, so a start that
   * is not a number makes the addition raise (None) whether `next_start` is present or not.
   */
  function NextStart(pagination: Json, start: Json): (r: Option<Json>)
    ensures r.None? <==> start.JNull? || start.JStr? || start.JList? || start.JObj?
    ensures r.Some? && Has(pagination, "next_start") ==> r == Get(pagination, "next_start")
    ensures start.JInt? && !Has(pagination, "next_start") ==> r == Some(JInt(start.i + 100))
    ensures start.JFloat? && !Has(pagination, "next_start") ==> r == Some(FloatPlus(start.repr, 100))
  {
    match StartPlus(start)
    case None => None
    case Some(n) => Some(GetOr(pagination, "next_start", n))
  }

  /**
   * A float start, as a float `next_start` gives, pages on: after a whole float `w.0` without a
   * `next_start` the next request starts at `(w + 100).0`, as Python's float addition gives below 2^53.
   */
  lemma FloatStartPagesOn(pagination: Json, w: int)
    requires !Has(pagination, "next_start") && -ExactFloat <= w && w + 100 <= ExactFloat
    ensures NextStart(pagination, JFloat(IntToString(w) + ".0")) == Some(JFloat(IntToString(w + 100) + ".0"))
  {
    WholeFloatPlus(w, 100);
  }

  /** What one v1 reply does to the loop: end it quietly, end it after its page, raise, or go on to `next`. */
  datatype V1Step = V1Failed | V1Final(page: seq<Json>) | V1Raises(page: seq<Json>) | V1Goes(page: seq<Json>, next: Json)

  /**
   * The step of the reply to the request with `start`: a failed request ends paging quietly; a
   * page that cannot be read escapes the connector, after `extend` when only the pagination is
   * at fault; a falsy `more_items_in_collection` ends paging after keeping the page; a
   * `start + 100` that raises escapes; otherwise paging goes on from the next start.
   */
  function V1StepOf(r: Reply, start: Json): V1Step {
    if Failed(r) then V1Failed
    else if !V1Readable(r) then V1Raises(PageData(r))
    else if !MoreItems(r) then V1Final(PageData(r))
    else match NextStart(Pagination(r).value, start)
      case None => V1Raises(PageData(r))
      case Some(next) => V1Goes(PageData(r), next)
  }

  /** The records a step keeps. */
  function StepPage(s: V1Step): seq<Json> {
    if s.V1Failed? then [] else s.page
  }

  /** A v1 step fails exactly on a failed request. */
  lemma V1StepFailed(r: Reply, start: Json)
    ensures V1StepOf(r, start).V1Failed? <==> Failed(r)
  {
  }

  /** A final v1 step answered a page announcing no more items. */
  lemma V1StepFinal(r: Reply, start: Json)
    ensures V1StepOf(r, start).V1Final? ==> V1Readable(r) && !MoreItems(r)
  {
  }

  /** A raising v1 step answered an unreadable page, or one announcing more items whose next start cannot be computed. */
  lemma V1StepRaises(r: Reply, start: Json)
    ensures V1StepOf(r, start).V1Raises? ==>
      !Failed(r) && (!V1Readable(r) || (MoreItems(r) && NextStart(Pagination(r).value, start).None?))
  {
  }

  /** A v1 step that goes on answered a page announcing more items, and goes on from its next start. */
  lemma V1StepGoes(r: Reply, start: Json)
    ensures V1StepOf(r, start).V1Goes? ==> V1Continued(r, start, V1StepOf(r, start).next)
  {
  }

  /** A v1 step that did not fail keeps the reply's page. */
  lemma V1StepPage(r: Reply, start: Json)
    ensures !Failed(r) ==> StepPage(V1StepOf(r, start)) == PageData(r)
  {
  }

  /** A v1-shaped loop from the request with `start` on, each reply classified by `step`. */
  function StepsRun(replies: seq<Reply>, start: Json, step: (Reply, Json) -> V1Step): Fetched<Json>
    decreases |replies|
  {
    if replies == [] then Fetched([], [], OutOfReplies)
    else match step(replies[0], start)
      case V1Failed => Fetched([], [start], RequestFailed)
      case V1Final(page) => Fetched(page, [start], Finished)
      case V1Raises(page) => Fetched(page, [start], Crashed)
      case V1Goes(page, next) => Then(page, start, StepsRun(replies[1..], next, step))
  }

  /** At most one request per reply, the first with `start`, each next one with the start its predecessor's step gave. */
  lemma {:induction false} StepsRequests(replies: seq<Reply>, start: Json, step: (Reply, Json) -> V1Step)
    ensures var f := StepsRun(replies, start, step); var n := |f.requests|;
      && n <= |replies|
      && (replies != [] ==> n > 0 && f.requests[0] == start)
      && (forall k :: 0 <= k < n - 1 ==>
           step(replies[k], f.requests[k]).V1Goes? && step(replies[k], f.requests[k]).next == f.requests[k + 1])
    decreases |replies|
  {
    if replies != [] && step(replies[0], start).V1Goes? {
      var next := step(replies[0], start).next;
      StepsRequests(replies[1..], next, step);
      var f, g := StepsRun(replies, start, step), StepsRun(replies[1..], next, step);
      assert f == Then(step(replies[0], start).page, start, g);
      forall k | 1 <= k < |f.requests| - 1
        ensures step(replies[k], f.requests[k]).V1Goes? && step(replies[k], f.requests[k]).next == f.requests[k + 1]
      {
        assert f.requests[k] == g.requests[k - 1] && f.requests[k + 1] == g.requests[k];
        assert replies[k] == replies[1..][k - 1];
      }
    }
  }

  /** How a v1-shaped loop ends: by the step of its last request, or when the replies run out after steps that all went on. */
  lemma {:induction false} StepsStop(replies: seq<Reply>, start: Json, step: (Reply, Json) -> V1Step)
    ensures var f := StepsRun(replies, start, step); var n := |f.requests|;
      && n <= |replies|
      && (f.stop.OutOfReplies? ==> n == |replies| && (n > 0 ==> step(replies[n - 1], f.requests[n - 1]).V1Goes?))
      && (f.stop.RequestFailed? ==> n > 0 && step(replies[n - 1], f.requests[n - 1]).V1Failed?)
      && (f.stop.Finished? ==> n > 0 && step(replies[n - 1], f.requests[n - 1]).V1Final?)
      && (f.stop.Crashed? ==> n > 0 && step(replies[n - 1], f.requests[n - 1]).V1Raises?)
    decreases |replies|
  {
    if replies != [] && step(replies[0], start).V1Goes? {
      var next := step(replies[0], start).next;
      StepsStop(replies[1..], next, step);
      var f, g := StepsRun(replies, start, step), StepsRun(replies[1..], next, step);
      assert f == Then(step(replies[0], start).page, start, g);
      var n := |f.requests|;
      if n > 1 {
        assert f.requests[n - 1] == g.requests[n - 2];
        assert replies[n - 1] == replies[1..][n - 2];
      }
    }
  }

  /** No kept page of a v1-shaped loop comes from a failed step. */
  lemma StepsKept(replies: seq<Reply>, start: Json, step: (Reply, Json) -> V1Step)
    ensures var f := StepsRun(replies, start, step);
      && 0 <= Kept(f) <= |f.requests| <= |replies|
      && (forall k :: 0 <= k < Kept(f) ==> !step(replies[k], f.requests[k]).V1Failed?)
  {
    StepsRequests(replies, start, step);
    StepsStop(replies, start, step);
  }

  /** The kept pages of the first `n` requests agree with `page`. */
  predicate PagesAgree(replies: seq<Reply>, reqs: seq<Json>, n: nat, step: (Reply, Json) -> V1Step, page: Reply -> seq<Json>)
    requires n <= |replies| && n <= |reqs|
  {
    forall k :: 0 <= k < n ==> StepPage(step(replies[k], reqs[k])) == page(replies[k])
  }

  /** The records of a v1-shaped loop are the kept pages joined in request order. */
  lemma {:induction false} StepsItems(replies: seq<Reply>, start: Json, step: (Reply, Json) -> V1Step, page: Reply -> seq<Json>)
    requires var f := StepsRun(replies, start, step);
      0 <= Kept(f) <= |f.requests| <= |replies| && PagesAgree(replies, f.requests, Kept(f), step, page)
    ensures var f := StepsRun(replies, start, step); 0 <= Kept(f) <= |replies| && f.items == PagesOf(replies, Kept(f), page)
    decreases |replies|
  {
    if replies != [] {
      var f := StepsRun(replies, start, step);
      var s := step(replies[0], start);
      if s.V1Goes? {
        var g := StepsRun(replies[1..], s.next, step);
        assert f == Then(s.page, start, g);
        assert Kept(f) == Kept(g) + 1;
        forall k | 0 <= k < Kept(g) ensures StepPage(step(replies[1..][k], g.requests[k])) == page(replies[1..][k]) {
          assert replies[1..][k] == replies[k + 1] && g.requests[k] == f.requests[k + 1];
        }
        StepsItems(replies[1..], s.next, step, page);
        PagesOfCons(replies, Kept(f), page);
      } else if !s.V1Failed? {
        PagesOfCons(replies, 1, page);
      }
    }
  }

  /** The v1 loop of `_fetch_all` from the request with `start` on, over the replies to it and to the requests after it. */
  function V1Run(replies: seq<Reply>, start: Json): Fetched<Json> {
    StepsRun(replies, start, V1StepOf)
  }

  /** `_fetch_all` with version v1 (every request also carries `limit=100`). */
  method FetchAllV1(replies: seq<Reply>) returns (r: Fetched<Json>)
    ensures r == V1Run(replies, JInt(0))
  {
    var items: seq<Json> := [];
    var starts: seq<Json> := [];
    var start := JInt(0);
    var i := 0;
    ResumeEmpty(V1Run(replies, start));
    while i < |replies|
      invariant 0 <= i <= |replies|
      invariant V1Run(replies, JInt(0)) == Resume(items, starts, V1Run(replies[i..], start))
    {
      var reply := replies[i];
      assert replies[i..][0] == reply && replies[i..][1..] == replies[i + 1..];
      if Failed(reply) {
        return Fetched(items, starts + [start], RequestFailed);
      }
      var records := PageRecords(reply);
      if records.None? {
        return Fetched(items, starts + [start], Crashed);
      }
      var page := records.value;
      var pagination := Pagination(reply);
      if pagination.None? {
        return Fetched(items + page, starts + [start], Crashed);
      }
      if !Truthy(At(pagination.value, "more_items_in_collection")) {
        return Fetched(items + page, starts + [start], Finished);
      }
      var next := NextStart(pagination.value, start);
      if next.None? {
        return Fetched(items + page, starts + [start], Crashed);
      }
      assert V1StepOf(reply, start) == V1Goes(page, next.value);
      ResumeThen(items, starts, page, start, V1Run(replies[i + 1..], next.value));
      items, starts := items + page, starts + [start];
      start := next.value;
      i := i + 1;
    }
    assert replies[i..] == [];
    return Fetched(items, starts, OutOfReplies);
  }

  /** A v1 request that lets paging go on with `next` as the following start. */
  predicate V1Continued(r: Reply, start: Json, next: Json) {
    V1Readable(r) && MoreItems(r) && NextStart(Pagination(r).value, start) == Some(next)
  }

  /**
   * The v1 requests: one per reply at most, the first with the given start, each next one with
   * the previous reply's `next_start` (else the previous start plus 100), and paging goes on only
   * while `more_items_in_collection` is truthy.
   */
  lemma V1Requests(replies: seq<Reply>, start: Json)
    ensures var f := V1Run(replies, start);
      && |f.requests| <= |replies|
      && (replies != [] ==> f.requests != [] && f.requests[0] == start)
      && (forall k :: 0 <= k < |f.requests| - 1 ==> V1Continued(replies[k], f.requests[k], f.requests[k + 1]))
  {
    StepsRequests(replies, start, V1StepOf);
    var f := V1Run(replies, start);
    forall k | 0 <= k < |f.requests| - 1 ensures V1Continued(replies[k], f.requests[k], f.requests[k + 1]) {
      V1StepGoes(replies[k], f.requests[k]);
    }
  }

  /**
   * How v1 paging ends: `Finished` after a page whose `more_items_in_collection` is falsy,
   * `RequestFailed` at a failed request, `Crashed` at an unreadable page or when `start + 100`
   * raises, and the end of the supply only when every reply so far announced more.
   */
  lemma V1Stop(replies: seq<Reply>, start: Json)
    ensures var f := V1Run(replies, start); var n := |f.requests|;
      && n <= |replies|
      && (f.stop.OutOfReplies? ==> n == |replies|)
      && (f.stop.OutOfReplies? && n > 0 ==> V1Readable(replies[n - 1]) && MoreItems(replies[n - 1]))
  {
    StepsStop(replies, start, V1StepOf);
    var f := V1Run(replies, start);
    var n := |f.requests|;
    if f.stop.OutOfReplies? && n > 0 {
      V1StepGoes(replies[n - 1], f.requests[n - 1]);
    }
  }

  /** A run that ends quietly does so on its last request: a failed one, or one announcing no more items. */
  lemma V1Ends(replies: seq<Reply>, start: Json)
    ensures var f := V1Run(replies, start); var n := |f.requests|;
      && (f.stop.RequestFailed? ==> 0 < n <= |replies| && Failed(replies[n - 1]))
      && (f.stop.Finished? ==> 0 < n <= |replies| && V1Readable(replies[n - 1]) && !MoreItems(replies[n - 1]))
  {
    StepsStop(replies, start, V1StepOf);
    var f := V1Run(replies, start);
    var n := |f.requests|;
    if f.stop.RequestFailed? {
      V1StepFailed(replies[n - 1], f.requests[n - 1]);
    } else if f.stop.Finished? {
      V1StepFinal(replies[n - 1], f.requests[n - 1]);
    }
  }

  /** Paging raises only at an unreadable page, or after a page announcing more items whose next start cannot be computed. */
  lemma V1Crash(replies: seq<Reply>, start: Json)
    ensures var f := V1Run(replies, start); var n := |f.requests|;
      f.stop.Crashed? ==>
        n > 0 && n <= |replies| && !Failed(replies[n - 1])
        && (!V1Readable(replies[n - 1])
            || (MoreItems(replies[n - 1]) && NextStart(Pagination(replies[n - 1]).value, f.requests[n - 1]).None?))
  {
    StepsStop(replies, start, V1StepOf);
    var f := V1Run(replies, start);
    var n := |f.requests|;
    if f.stop.Crashed? {
      V1StepRaises(replies[n - 1], f.requests[n - 1]);
    }
  }

  /**
   * A readable page makes paging raise only at a start that is not a number (None, a string, a
   * list, a dict), which only a `next_start` of that kind can bring in.
   */
  lemma V1CrashStart(replies: seq<Reply>, start: Json)
    ensures var f := V1Run(replies, start); var n := |f.requests|;
      f.stop.Crashed? ==>
        0 < n <= |replies|
        && (!V1Readable(replies[n - 1]) || (var s := f.requests[n - 1]; s.JNull? || s.JStr? || s.JList? || s.JObj?))
  {
    V1Crash(replies, start);
  }

  /** Every page whose records are kept came from a request that did not fail. */
  lemma V1Kept(replies: seq<Reply>, start: Json)
    ensures var f := V1Run(replies, start);
      && 0 <= Kept(f) <= |f.requests| <= |replies|
      && (forall k :: 0 <= k < Kept(f) ==> !Failed(replies[k]))
  {
    StepsKept(replies, start, V1StepOf);
    var f := V1Run(replies, start);
    forall k | 0 <= k < Kept(f) ensures !Failed(replies[k]) {
      V1StepFailed(replies[k], f.requests[k]);
    }
  }

  /** The records v1 paging returns are the pages it kept, joined in request order. */
  lemma V1Items(replies: seq<Reply>, start: Json)
    ensures var f := V1Run(replies, start);
      && 0 <= Kept(f) <= |replies|
      && f.items == PagesOf(replies, Kept(f), PageData)
  {
    V1Kept(replies, start);
    var f := V1Run(replies, start);
    forall k | 0 <= k < Kept(f) ensures StepPage(V1StepOf(replies[k], f.requests[k])) == PageData(replies[k]) {
      V1StepPage(replies[k], f.requests[k]);
    }
    StepsItems(replies, start, V1StepOf, PageData);
  }

  /** `data.get('additional_data', {}).get('next_cursor')`; None when that raises. */
  function NextCursor(r: Reply): Option<Json>
    requires r.Reply?
  {
    match Additional(r)
    case None => None
    case Some(d) => Some(At(d, "next_cursor"))
  }

  /** A v2 reply read without raising: the request succeeded, `extend` took the page, and `additional_data` is a dict. */
  predicate V2Readable(r: Reply) {
    !Failed(r) && PageRecords(r).Some? && NextCursor(r).Some?
  }

  /**
   * The v2 loop of `_fetch_all` from the request with `cursor` on (None: no `cursor` parameter).
   * A failed request ends paging quietly; a page that cannot be read escapes the connector; a
   * falsy `next_cursor` ends paging after keeping the page.
   */
  function V2Run(replies: seq<Reply>, cursor: Option<Json>): Fetched<Option<Json>>
    decreases |replies|
  {
    if replies == [] then Fetched([], [], OutOfReplies)
    else
      var r := replies[0];
      if Failed(r) then Fetched([], [cursor], RequestFailed)
      else if !V2Readable(r) then Fetched(PageData(r), [cursor], Crashed)
      else if !Truthy(NextCursor(r).value) then Fetched(PageData(r), [cursor], Finished)
      else Then(PageData(r), cursor, V2Run(replies[1..], NextCursor(r)))
  }

  /** `_fetch_all` with version v2 (every request also carries `limit=100`). */
  method FetchAllV2(replies: seq<Reply>) returns (r: Fetched<Option<Json>>)
    ensures r == V2Run(replies, None)
  {
    var items: seq<Json> := [];
    var cursors: seq<Option<Json>> := [];
    var cursor: Option<Json> := None;
    var i := 0;
    ResumeEmpty(V2Run(replies, cursor));
    while i < |replies|
      invariant 0 <= i <= |replies|
      invariant V2Run(replies, None) == Resume(items, cursors, V2Run(replies[i..], cursor))
    {
      var reply := replies[i];
      assert replies[i..][1..] == replies[i + 1..];
      if Failed(reply) {
        return Fetched(items, cursors + [cursor], RequestFailed);
      }
      var records := PageRecords(reply);
      if records.None? {
        return Fetched(items, cursors + [cursor], Crashed);
      }
      var page := records.value;
      var next := NextCursor(reply);
      if next.None? {
        return Fetched(items + page, cursors + [cursor], Crashed);
      }
      if !Truthy(next.value) {
        return Fetched(items + page, cursors + [cursor], Finished);
      }
      ResumeThen(items, cursors, page, cursor, V2Run(replies[i + 1..], next));
      items, cursors := items + page, cursors + [cursor];
      cursor := next;
      i := i + 1;
    }
    assert replies[i..] == [];
    return Fetched(items, cursors, OutOfReplies);
  }

  /**
   * The v2 requests: one per reply at most, the first without a cursor, each next one with the
   * previous reply's `next_cursor`, which was truthy.
   */
  lemma {:induction false} V2Requests(replies: seq<Reply>, cursor: Option<Json>)
    ensures var f := V2Run(replies, cursor); var n := |f.requests|;
      && n <= |replies|
      && (replies != [] ==> n > 0 && f.requests[0] == cursor)
      && (forall k :: 0 <= k < n - 1 ==>
            V2Readable(replies[k]) && Truthy(NextCursor(replies[k]).value) && f.requests[k + 1] == NextCursor(replies[k]))
    decreases |replies|
  {
    if replies != [] {
      var r := replies[0];
      if V2Readable(r) && Truthy(NextCursor(r).value) {
        var next := NextCursor(r);
        V2Requests(replies[1..], next);
        var f, g := V2Run(replies, cursor), V2Run(replies[1..], next);
        forall k | 0 <= k < |f.requests| - 1
          ensures V2Readable(replies[k]) && Truthy(NextCursor(replies[k]).value) && f.requests[k + 1] == NextCursor(replies[k])
        {
          if k > 0 {
            assert f.requests[k + 1] == g.requests[k];
            assert replies[k] == replies[1..][k - 1];
          }
        }
      }
    }
  }

  /**
   * How v2 paging ends: `Finished` after a page with a falsy `next_cursor`, `RequestFailed` at a
   * failed request, and `Crashed` only at a page that cannot be read.
   */
  lemma {:induction false} V2Stop(replies: seq<Reply>, cursor: Option<Json>)
    ensures var f := V2Run(replies, cursor); var n := |f.requests|;
      && n <= |replies|
      && (f.stop.Crashed? ==> n > 0 && !Failed(replies[n - 1]) && !V2Readable(replies[n - 1]))
      && (f.stop.OutOfReplies? ==> n == |replies|)
      && (f.stop.RequestFailed? ==> n > 0 && Failed(replies[n - 1]))
      && (f.stop.Finished? ==> n > 0 && V2Readable(replies[n - 1]) && !Truthy(NextCursor(replies[n - 1]).value))
    decreases |replies|
  {
    if replies != [] {
      var r := replies[0];
      if V2Readable(r) && Truthy(NextCursor(r).value) {
        var next := NextCursor(r);
        V2Stop(replies[1..], next);
        var n := |V2Run(replies, cursor).requests|;
        if n > 1 {
          assert replies[n - 1] == replies[1..][n - 2];
        }
      }
    }
  }

  /** The records v2 paging returns are the pages of every request but a failed last one, in order. */
  lemma {:induction false} V2Items(replies: seq<Reply>, cursor: Option<Json>)
    ensures var f := V2Run(replies, cursor);
      && 0 <= Kept(f) <= |f.requests| <= |replies|
      && f.items == PagesOf(replies, Kept(f), PageData)
    decreases |replies|
  {
    if replies != [] {
      var r := replies[0];
      var f := V2Run(replies, cursor);
      if V2Readable(r) && Truthy(NextCursor(r).value) {
        var g := V2Run(replies[1..], NextCursor(r));
        V2Items(replies[1..], NextCursor(r));
        assert f == Then(PageData(r), cursor, g);
        assert Kept(f) == Kept(g) + 1;
        PagesOfCons(replies, Kept(f), PageData);
      } else if !Failed(r) {
        PagesOfCons(replies, 1, PageData);
      }
    }
  }

  // ---------------------------------------------------------------------------------------------
  // extract_all

  /** The replies to the requests of each endpoint, by endpoint name. */
  type Replies = string -> seq<Reply>

  /** `_fetch_all(endpoint, 'v1')` over that endpoint's replies. */
  function V1Fetch(replies: Replies, endpoint: string): Fetched<Json> {
    V1Run(replies(endpoint), JInt(0))
  }

  /** `_fetch_all(endpoint, 'v2')` over that endpoint's replies. */
  function V2Fetch(replies: Replies, endpoint: string): Fetched<Option<Json>> {
    V2Run(replies(endpoint), None)
  }

  /** `_fetch_all(endpoint, 'v1')` returns: no page reading and no `start + 100` raised. */
  predicate V1Ok(replies: Replies, endpoint: string) {
    !V1Fetch(replies, endpoint).stop.Crashed?
  }

  /** `_fetch_all(endpoint, 'v2')` returns: no page reading raised. */
  predicate V2Ok(replies: Replies, endpoint: string) {
    !V2Fetch(replies, endpoint).stop.Crashed?
  }

  /** A field listing that is fetched and mapped without raising. */
  predicate FieldsFetched(replies: Replies, endpoint: string) {
    V1Ok(replies, endpoint) && FieldsOk(V1Fetch(replies, endpoint).items)
  }

  predicate FieldsOk(fields: seq<Json>) {
    forall i :: 0 <= i < |fields| ==> FieldOk(fields[i])
  }

  predicate Objects(data: seq<Json>) {
    forall i :: 0 <= i < |data| ==> data[i].JObj?
  }

  /** The flat rows of some records, with the mappings built from `fields`. */
  function Flattened(data: seq<Json>, fields: seq<Json>, isLead: bool): seq<Row>
    requires Objects(data)
  {
    seq(|data|, i requires 0 <= i < |data| => ItemRow(data[i].fields, FieldMapOf(fields), OptionsMapOf(fields), isLead))
  }

  /**
   * `extract_all` returns: the six field listings are fetched and mapped without raising, the
   * ten data listings are fetched without raising, and every record to be flattened is a dict.
   */
  predicate Succeeds(replies: Replies) {
    && FieldsFetched(replies, "organizationFields") && FieldsFetched(replies, "dealFields")
    && FieldsFetched(replies, "personFields") && FieldsFetched(replies, "activityFields")
    && FieldsFetched(replies, "productFields") && FieldsFetched(replies, "leadFields")
    && V2Ok(replies, "pipelines") && V2Ok(replies, "stages")
    && V1Ok(replies, "users") && V1Ok(replies, "leadLabels")
    && V2Ok(replies, "organizations") && V2Ok(replies, "persons") && V2Ok(replies, "products")
    && V2Ok(replies, "deals") && V2Ok(replies, "activities") && V1Ok(replies, "leads")
    && Objects(V2Fetch(replies, "organizations").items) && Objects(V2Fetch(replies, "persons").items)
    && Objects(V2Fetch(replies, "products").items) && Objects(V2Fetch(replies, "deals").items)
    && Objects(V2Fetch(replies, "activities").items) && Objects(V1Fetch(replies, "leads").items)
  }

  /** The ten tables of `extract_all`. */
  datatype Tables = Tables(pipelines: seq<Json>, stages: seq<Json>, users: seq<Json>, leadLabels: seq<Json>,
    organizations: seq<Row>, persons: seq<Row>, products: seq<Row>, deals: seq<Row>, activities: seq<Row>,
    leads: seq<Row>)

  /**
   * The tables of a successful run: the pipelines, stages, users and lead labels as listed, and
   * each entity flattened with the mappings of its own field listing (leads with their root hash keys).
   */
  function ExpectedTables(replies: Replies): Tables
    requires Succeeds(replies)
  {
    Tables(V2Fetch(replies, "pipelines").items, V2Fetch(replies, "stages").items,
      V1Fetch(replies, "users").items, V1Fetch(replies, "leadLabels").items,
      Flattened(V2Fetch(replies, "organizations").items, V1Fetch(replies, "organizationFields").items, false),
      Flattened(V2Fetch(replies, "persons").items, V1Fetch(replies, "personFields").items, false),
      Flattened(V2Fetch(replies, "products").items, V1Fetch(replies, "productFields").items, false),
      Flattened(V2Fetch(replies, "deals").items, V1Fetch(replies, "dealFields").items, false),
      Flattened(V2Fetch(replies, "activities").items, V1Fetch(replies, "activityFields").items, false),
      Flattened(V1Fetch(replies, "leads").items, V1Fetch(replies, "leadFields").items, true))
  }

  /** A v1 listing, or Err when its paging raised. */
  method FetchV1(replies: Replies, endpoint: string) returns (r: Result<seq<Json>>)
    ensures r.Ok? <==> V1Ok(replies, endpoint)
    ensures r.Ok? ==> r.value == V1Fetch(replies, endpoint).items
  {
    var f := FetchAllV1(replies(endpoint));
    if f.stop.Crashed? {
      return Err("v1 paging raised");
    }
    return Ok(f.items);
  }

  /** A v2 listing, or Err when its paging raised. */
  method FetchV2(replies: Replies, endpoint: string) returns (r: Result<seq<Json>>)
    ensures r.Ok? <==> V2Ok(replies, endpoint)
    ensures r.Ok? ==> r.value == V2Fetch(replies, endpoint).items
  {
    var f := FetchAllV2(replies(endpoint));
    if f.stop.Crashed? {
      return Err("v2 paging raised");
    }
    return Ok(f.items);
  }

  /** A field listing with the two mappings built from it. */
  datatype Mapped = Mapped(fields: seq<Json>, fieldMap: FieldMap, optionsMap: OptionsMap)

  /** `m` holds the listing of `endpoint` and its own mappings. */
  predicate MappedFrom(m: Mapped, replies: Replies, endpoint: string) {
    m.fields == V1Fetch(replies, endpoint).items && m.fieldMap == FieldMapOf(m.fields) && m.optionsMap == OptionsMapOf(m.fields)
  }

  /** The six mapped field listings. */
  datatype FieldSets = FieldSets(organization: Mapped, deal: Mapped, person: Mapped, activity: Mapped, product: Mapped, lead: Mapped)

  /** The first half of `extract_all`: the six field listings, then their six mappings. */
  method MapFields(replies: Replies) returns (r: Result<FieldSets>)
    ensures r.Ok? <==>
      && FieldsFetched(replies, "organizationFields") && FieldsFetched(replies, "dealFields")
      && FieldsFetched(replies, "personFields") && FieldsFetched(replies, "activityFields")
      && FieldsFetched(replies, "productFields") && FieldsFetched(replies, "leadFields")
    ensures r.Ok? ==>
      && MappedFrom(r.value.organization, replies, "organizationFields") && MappedFrom(r.value.deal, replies, "dealFields")
      && MappedFrom(r.value.person, replies, "personFields") && MappedFrom(r.value.activity, replies, "activityFields")
      && MappedFrom(r.value.product, replies, "productFields") && MappedFrom(r.value.lead, replies, "leadFields")
  {
    var orgFields := FetchV1(replies, "organizationFields");
    if orgFields.Err? { return Err(orgFields.error); }
    var dealFields := FetchV1(replies, "dealFields");
    if dealFields.Err? { return Err(dealFields.error); }
    var personFields := FetchV1(replies, "personFields");
    if personFields.Err? { return Err(personFields.error); }
    var activityFields := FetchV1(replies, "activityFields");
    if activityFields.Err? { return Err(activityFields.error); }
    var productFields := FetchV1(replies, "productFields");
    if productFields.Err? { return Err(productFields.error); }
    var leadFields := FetchV1(replies, "leadFields");
    if leadFields.Err? { return Err(leadFields.error); }

    var orgMaps := CreateFieldMappings(orgFields.value);
    if orgMaps.Err? { return Err(orgMaps.error); }
    var dealMaps := CreateFieldMappings(dealFields.value);
    if dealMaps.Err? { return Err(dealMaps.error); }
    var personMaps := CreateFieldMappings(personFields.value);
    if personMaps.Err? { return Err(personMaps.error); }
    var activityMaps := CreateFieldMappings(activityFields.value);
    if activityMaps.Err? { return Err(activityMaps.error); }
    var productMaps := CreateFieldMappings(productFields.value);
    if productMaps.Err? { return Err(productMaps.error); }
    var leadMaps := CreateFieldMappings(leadFields.value);
    if leadMaps.Err? { return Err(leadMaps.error); }

    return Ok(FieldSets(
      Mapped(orgFields.value, orgMaps.value.0, orgMaps.value.1),
      Mapped(dealFields.value, dealMaps.value.0, dealMaps.value.1),
      Mapped(personFields.value, personMaps.value.0, personMaps.value.1),
      Mapped(activityFields.value, activityMaps.value.0, activityMaps.value.1),
      Mapped(productFields.value, productMaps.value.0, productMaps.value.1),
      Mapped(leadFields.value, leadMaps.value.0, leadMaps.value.1)));
  }

  /** `_flatten_custom_fields` with the mappings of a field listing, or Err when a record is not a dict. */
  method Flatten(data: seq<Json>, m: Mapped, isLead: bool) returns (r: Result<seq<Row>>)
    requires m.fieldMap == FieldMapOf(m.fields) && m.optionsMap == OptionsMapOf(m.fields)
    ensures r.Ok? <==> Objects(data)
    ensures r.Ok? ==> Objects(data) && r.value == Flattened(data, m.fields, isLead)
  {
    r := FlattenCustomFields(data, m.fieldMap, m.optionsMap, isLead);
  }

  /**
   * `extract_all`: the six field listings and their mappings, the ten data listings, then the
   * six flattenings. Err when any step raises, which ends the whole extraction.
   */
  method ExtractAll(replies: Replies) returns (r: Result<Tables>)
    ensures r.Ok? <==> Succeeds(replies)
    ensures r.Ok? ==> Succeeds(replies) && r.value == ExpectedTables(replies)
  {
    var fs := MapFields(replies);
    if fs.Err? { return Err(fs.error); }

    var pipelines := FetchV2(replies, "pipelines");
    if pipelines.Err? { return Err(pipelines.error); }
    var stages := FetchV2(replies, "stages");
    if stages.Err? { return Err(stages.error); }
    var users := FetchV1(replies, "users");
    if users.Err? { return Err(users.error); }
    var labels := FetchV1(replies, "leadLabels");
    if labels.Err? { return Err(labels.error); }
    var organizations := FetchV2(replies, "organizations");
    if organizations.Err? { return Err(organizations.error); }
    var persons := FetchV2(replies, "persons");
    if persons.Err? { return Err(persons.error); }
    var products := FetchV2(replies, "products");
    if products.Err? { return Err(products.error); }
    var deals := FetchV2(replies, "deals");
    if deals.Err? { return Err(deals.error); }
    var activities := FetchV2(replies, "activities");
    if activities.Err? { return Err(activities.error); }
    var leads := FetchV1(replies, "leads");
    if leads.Err? { return Err(leads.error); }

    var orgFlat := Flatten(organizations.value, fs.value.organization, false);
    if orgFlat.Err? { return Err(orgFlat.error); }
    var personFlat := Flatten(persons.value, fs.value.person, false);
    if personFlat.Err? { return Err(personFlat.error); }
    var productFlat := Flatten(products.value, fs.value.product, false);
    if productFlat.Err? { return Err(productFlat.error); }
    var dealFlat := Flatten(deals.value, fs.value.deal, false);
    if dealFlat.Err? { return Err(dealFlat.error); }
    var activityFlat := Flatten(activities.value, fs.value.activity, false);
    if activityFlat.Err? { return Err(activityFlat.error); }
    var leadFlat := Flatten(leads.value, fs.value.lead, true);
    if leadFlat.Err? { return Err(leadFlat.error); }

    return Ok(Tables(pipelines.value, stages.value, users.value, labels.value, orgFlat.value, personFlat.value,
      productFlat.value, dealFlat.value, activityFlat.value, leadFlat.value));
  }
}
