/**
 * The Google Sheets manager: the CSV export URL of a sheet tab, and `get_tab_data`, which gives
 * every tenant row a project id and a company id (a slug of the client's name where the sheet has
 * none) and keeps the rows whose project id is not `unknown`. The records are those pandas reads
 * from the CSV, after dropping empty rows and filling empty cells with `''`.
 */
module GSheets {
  import opened Json
  import opened Seqs
  import opened Text

  const UrlHead := "https://docs.google.com/spreadsheets/d/"
  const UrlMiddle := "/export?format=csv&gid="

  /** `BASE_URL.format(sheet_id=..., gid=...)`. */
  function ExportUrl(sheetId: string, gid: string): string {
    UrlHead + sheetId + UrlMiddle + gid
  }

  /** The sheet id and the tab id can be read back from the URL, between the fixed parts. */
  lemma ExportUrlParts(sheetId: string, gid: string)
    ensures var u := ExportUrl(sheetId, gid); var m := |UrlHead| + |sheetId|;
      && |u| == m + |UrlMiddle| + |gid|
      && u[..|UrlHead|] == UrlHead && u[|UrlHead|..m] == sheetId
      && u[m..m + |UrlMiddle|] == UrlMiddle && u[m + |UrlMiddle|..] == gid
  {
  }

  /** A record of the tab, as `to_dict('records')` gives it. */
  type Record = seq<Field>

  /** `row.get(k)`. */
  function Cell(row: Record, k: string): Json {
    At(JObj(row), k)
  }

  /** `row.get('project_id') or row.get('company_name') or row.get('name') or 'unknown'`. */
  function ClientName(row: Record): Json {
    Or(Cell(row, "project_id"), Or(Cell(row, "company_name"), Or(Cell(row, "name"), JStr("unknown"))))
  }

  /** The name is the first truthy one of the three columns, else `'unknown'`. */
  lemma ClientNameFirst(row: Record)
    ensures Truthy(Cell(row, "project_id")) ==> ClientName(row) == Cell(row, "project_id")
    ensures !Truthy(Cell(row, "project_id")) && Truthy(Cell(row, "company_name")) ==>
      ClientName(row) == Cell(row, "company_name")
    ensures !Truthy(Cell(row, "project_id")) && !Truthy(Cell(row, "company_name")) && Truthy(Cell(row, "name")) ==>
      ClientName(row) == Cell(row, "name")
    ensures !Truthy(Cell(row, "project_id")) && !Truthy(Cell(row, "company_name")) && !Truthy(Cell(row, "name")) ==>
      ClientName(row) == JStr("unknown")
  {
  }

  /** `name.lower().replace(' ', '_').replace('-', '_').strip()`. */
  function Slug(name: string): string {
    Strip(ReplaceChar(ReplaceChar(Lower(name), ' ', '_'), '-', '_'))
  }

  /** A character a slug can hold: already lower case, and neither a space nor a hyphen. */
  predicate SlugChar(c: char) {
    LowerChar(c) == c && c != ' ' && c != '-'
  }

  lemma LowerTwice(c: char)
    ensures LowerChar(LowerChar(c)) == LowerChar(c)
  {
  }

  /** Every character `lstrip` keeps comes from its argument. */
  lemma {:induction false} LStripChars(s: string)
    ensures forall i :: 0 <= i < |LStrip(s)| ==> LStrip(s)[i] in s
    decreases |s|
  {
    if s != [] && IsSpace(s[0]) {
      LStripChars(s[1..]);
      forall i | 0 <= i < |LStrip(s)| ensures LStrip(s)[i] in s {
        assert LStrip(s)[i] in s[1..];
      }
    }
  }

  /** Every character `rstrip` keeps comes from its argument. */
  lemma {:induction false} RStripChars(s: string)
    ensures forall i :: 0 <= i < |RStrip(s)| ==> RStrip(s)[i] in s
    decreases |s|
  {
    if s != [] && IsSpace(s[|s| - 1]) {
      RStripChars(s[..|s| - 1]);
      forall i | 0 <= i < |RStrip(s)| ensures RStrip(s)[i] in s {
        assert RStrip(s)[i] in s[..|s| - 1];
      }
    }
  }

  /** A slug holds only lower-case characters, no space and no hyphen, and has no whitespace at either end. */
  lemma SlugShape(name: string)
    ensures forall i :: 0 <= i < |Slug(name)| ==> SlugChar(Slug(name)[i])
    ensures Slug(name) == [] || (!IsSpace(Slug(name)[0]) && !IsSpace(Slug(name)[|Slug(name)| - 1]))
  {
    var w := ReplaceChar(ReplaceChar(Lower(name), ' ', '_'), '-', '_');
    forall i | 0 <= i < |w| ensures SlugChar(w[i]) {
      LowerTwice(name[i]);
    }
    LStripChars(w);
    RStripChars(LStrip(w));
  }

  /** A slug is its own slug: generating an id from a generated id changes nothing. */
  lemma SlugIdempotent(name: string)
    ensures Slug(Slug(name)) == Slug(name)
  {
    var y := Slug(name);
    SlugShape(name);
    assert Lower(y) == y;
    assert ReplaceChar(y, ' ', '_') == y;
    assert ReplaceChar(y, '-', '_') == y;
    assert LStrip(y) == y;
    assert RStrip(y) == y;
  }

  /** The name as text; only consulted for rows whose name is a string. */
  function NameText(row: Record): string {
    var n := ClientName(row);
    if n.JStr? then n.s else ""
  }

  /** The project id the row ends with: its own when truthy, else the slug. */
  function FinalProjectId(row: Record): Json {
    if Truthy(Cell(row, "project_id")) then Cell(row, "project_id") else JStr(Slug(NameText(row)))
  }

  /** The row after the two fills: an empty `project_id`, then an empty `company_id`, become the slug. */
  function Filled(row: Record): Record {
    var slug := JStr(Slug(NameText(row)));
    var r1 := if !Truthy(Cell(row, "project_id")) then SetField(row, "project_id", slug) else row;
    if !Truthy(Cell(r1, "company_id")) then SetField(r1, "company_id", slug) else r1
  }

  /** `row['project_id'] != 'unknown'` after the fills. */
  predicate Keep(row: Record) {
    FinalProjectId(row) != JStr("unknown")
  }

  /** `.lower()` succeeds: the name is a string. */
  predicate Named(row: Record) {
    ClientName(row).JStr?
  }

  /**
   * Truthy ids are kept as they are and empty ones become the slug; every other column is
   * untouched, and the final project id is the one `Keep` tests.
   */
  lemma FilledIds(row: Record, k: string)
    ensures Lookup(Filled(row), "project_id") == Some(FinalProjectId(row))
    ensures Lookup(Filled(row), "company_id")
      == Some(if Truthy(Cell(row, "company_id")) then Cell(row, "company_id") else JStr(Slug(NameText(row))))
    ensures k != "project_id" && k != "company_id" ==> Lookup(Filled(row), k) == Lookup(row, k)
  {
    var slug := JStr(Slug(NameText(row)));
    var r1 := if !Truthy(Cell(row, "project_id")) then SetField(row, "project_id", slug) else row;
    assert Cell(r1, "company_id") == Cell(row, "company_id");
    if Truthy(Cell(row, "project_id")) {
      assert Lookup(row, "project_id") == Some(Cell(row, "project_id"));
    }
    if Truthy(Cell(row, "company_id")) {
      assert Lookup(r1, "company_id") == Some(Cell(row, "company_id"));
    }
  }

  /** A row with none of the three name columns gets the id `unknown` and is dropped. */
  lemma UnknownDropped(row: Record)
    requires !Truthy(Cell(row, "project_id")) && !Truthy(Cell(row, "company_name")) && !Truthy(Cell(row, "name"))
    ensures Named(row) && !Keep(row)
  {
    var u := "unknown";
    assert Lower(u) == u;
    assert ReplaceChar(u, ' ', '_') == u && ReplaceChar(u, '-', '_') == u;
    assert LStrip(u) == u && RStrip(u) == u;
  }

  /** Every record's name is a string. */
  predicate AllNamed(rows: seq<Record>) {
    forall k :: 0 <= k < |rows| ==> Named(rows[k])
  }

  /** `get_tab_data`'s result for what `read_csv` gave: `[]` when reading or any row's processing raised. */
  function TabData(read: Option<seq<Record>>): seq<Record> {
    if read.None? || !AllNamed(read.value) then []
    else Map(Filter(read.value, Keep), Filled)
  }

  /**
   * The rows returned are the filled rows the sheet kept, in sheet order: every one comes from a
   * kept record, and every kept record's filled row is returned.
   */
  lemma TabDataRows(rows: seq<Record>)
    requires AllNamed(rows)
    ensures |TabData(Some(rows))| <= |rows|
    ensures forall r :: r in TabData(Some(rows)) ==> exists x :: x in rows && Keep(x) && r == Filled(x)
    ensures forall x :: x in rows && Keep(x) ==> Filled(x) in TabData(Some(rows))
  {
    MapFilterMembers(rows, Keep, Filled);
  }

  /** One record whose name is not a string makes the whole tab read as empty. */
  lemma UnnamedEmpties(rows: seq<Record>, k: int)
    requires 0 <= k < |rows| && !Named(rows[k])
    ensures TabData(Some(rows)) == [] && TabData(None) == []
  {
  }

  /** The body of the loop for one record: whether its name is a string, and the record with its ids filled. */
  method FillRow(row: Record) returns (named: bool, filled: Record)
    ensures named == Named(row)
    ensures named ==> filled == Filled(row)
  {
    var name := Or(Cell(row, "project_id"), Or(Cell(row, "company_name"), Or(Cell(row, "name"), JStr("unknown"))));
    if !name.JStr? {
      return false, row;
    }
    var generated := Strip(ReplaceChar(ReplaceChar(Lower(name.s), ' ', '_'), '-', '_'));
    filled := row;
    if !Truthy(Cell(filled, "project_id")) {
      filled := SetField(filled, "project_id", JStr(generated));
    }
    if !Truthy(Cell(filled, "company_id")) {
      filled := SetField(filled, "company_id", JStr(generated));
    }
    named := true;
  }

  /** The loop tests the filled row's project id, which is the final id `Keep` tests. */
  lemma KeepFilled(row: Record)
    ensures Keep(row) <==> Lookup(Filled(row), "project_id") != Some(JStr("unknown"))
  {
    FilledIds(row, "");
  }

  /** A prefix one record longer is still all named when that record is. */
  lemma AllNamedSnoc(rows: seq<Record>, i: int)
    requires 0 <= i < |rows| && Named(rows[i]) && AllNamed(rows[..i])
    ensures AllNamed(rows[..i + 1])
  {
    var longer := rows[..i + 1];
    forall k | 0 <= k < |longer| ensures Named(longer[k]) {
      if k < i {
        assert longer[k] == rows[..i][k];
      }
    }
  }

  /**
   * One pass of the loop over the records: stop with an empty tab when the record's name is not
   * a string, else append the filled record when its project id is not `unknown`.
   */
  method AddRecord(rows: seq<Record>, i: int, valid: seq<Record>) returns (stop: bool, more: seq<Record>)
    requires 0 <= i < |rows| && AllNamed(rows[..i])
    requires valid == Map(Filter(rows[..i], Keep), Filled)
    ensures stop ==> TabData(Some(rows)) == []
    ensures !stop ==> AllNamed(rows[..i + 1]) && more == Map(Filter(rows[..i + 1], Keep), Filled)
  {
    var named, row := FillRow(rows[i]);
    if !named {
      UnnamedEmpties(rows, i);
      return true, valid;
    }
    AllNamedSnoc(rows, i);
    KeepFilled(rows[i]);
    MapFilterSnoc(rows, Keep, Filled, i);
    more := valid;
    if Lookup(row, "project_id") != Some(JStr("unknown")) {
      more := more + [row];
    }
    return false, more;
  }

  /** `get_tab_data(gid)`: `read` is what `read_csv` gave for the URL, None when reading raised. */
  method GetTabData(sheetId: string, gid: string, read: Option<seq<Record>>) returns (url: string, valid: seq<Record>)
    ensures url == ExportUrl(sheetId, gid)
    ensures valid == TabData(read)
  {
    url := UrlHead + sheetId + UrlMiddle + gid;
    if read.None? {
      return url, [];
    }
    var rows := read.value;
    valid := [];
    for i := 0 to |rows|
      invariant valid == Map(Filter(rows[..i], Keep), Filled)
      invariant AllNamed(rows[..i])
    {
      var stop;
      stop, valid := AddRecord(rows, i, valid);
      if stop {
        return url, [];
      }
    }
    assert rows[..|rows|] == rows;
  }
}
