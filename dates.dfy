/** Python `datetime` values as the connectors use them: day stepping, comparison and formatting. */
module Dates {
  import opened Json

  /**
   * A naive `datetime`: `day` is the proleptic Gregorian ordinal (`date.toordinal()`, so day 1 is
   * 0001-01-01) and `micros` the time of day in microseconds.
   */
  datatype DateTime = DateTime(day: int, micros: nat)

  /** `a <= b` on datetimes. */
  predicate LessEq(a: DateTime, b: DateTime) {
    a.day < b.day || (a.day == b.day && a.micros <= b.micros)
  }

  /** `a + timedelta(days=n)`. */
  function AddDays(a: DateTime, n: int): DateTime {
    DateTime(a.day + n, a.micros)
  }

  datatype Ymd = Ymd(year: int, month: int, day: int)

  function DaysBeforeMonth(m: int): int {
    if m <= 1 then 0 else if m == 2 then 31 else if m == 3 then 59 else if m == 4 then 90
    else if m == 5 then 120 else if m == 6 then 151 else if m == 7 then 181 else if m == 8 then 212
    else if m == 9 then 243 else if m == 10 then 273 else if m == 11 then 304 else 334
  }

  function DaysInMonth(m: int): int {
    if m == 2 then 28 else if m == 4 || m == 6 || m == 9 || m == 11 then 30 else 31
  }

  /** `date.fromordinal(n)`, following the 400/100/4/1-year cycle decomposition of CPython's datetime module. */
  function FromOrdinal(n: int): Ymd {
    var n0 := n - 1;
    var n400 := n0 / 146097;
    var r400 := n0 % 146097;
    var n100 := r400 / 36524;
    var r100 := r400 % 36524;
    var n4 := r100 / 1461;
    var r4 := r100 % 1461;
    var n1 := r4 / 365;
    var r1 := r4 % 365;
    var year := n400 * 400 + 1 + n100 * 100 + n4 * 4 + n1;
    if n1 == 4 || n100 == 4 then Ymd(year - 1, 12, 31)
    else
      var leap := n1 == 3 && (n4 != 24 || n100 == 3);
      var month := (r1 + 50) / 32;
      var preceding := DaysBeforeMonth(month) + (if month > 2 && leap then 1 else 0);
      if preceding > r1 then
        var m := month - 1;
        var p := preceding - (DaysInMonth(m) + (if m == 2 && leap then 1 else 0));
        Ymd(year, m, r1 - p + 1)
      else Ymd(year, month, r1 - preceding + 1)
  }

  /** A number written in decimal and left-padded with zeros to `width` characters, as `%Y`, `%m`, `%d` do. */
  function Pad(n: int, width: nat): (r: string)
    ensures |r| >= width
  {
    var s := IntToString(n);
    if |s| >= width then s else seq(width - |s|, _ => '0') + s
  }

  /** `strftime("%Y-%m-%d")`. */
  function IsoDate(d: DateTime): string {
    var ymd := FromOrdinal(d.day);
    Pad(ymd.year, 4) + "-" + Pad(ymd.month, 2) + "-" + Pad(ymd.day, 2)
  }

  /** `strftime("%d/%m/%Y")`. */
  function DmyDate(d: DateTime): string {
    var ymd := FromOrdinal(d.day);
    Pad(ymd.day, 2) + "/" + Pad(ymd.month, 2) + "/" + Pad(ymd.year, 4)
  }

  /** `datetime.isoformat()`: the microseconds are written only when they are not zero. */
  function IsoFormat(d: DateTime): string {
    var secs := d.micros / 1000000;
    var us := d.micros % 1000000;
    var clock := Pad(secs / 3600, 2) + ":" + Pad(secs / 60 % 60, 2) + ":" + Pad(secs % 60, 2);
    IsoDate(d) + "T" + clock + (if us == 0 then "" else "." + Pad(us, 6))
  }
}
