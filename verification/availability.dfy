/**
  `determine_availability` and the two tables around it: the `DD/MM/YYYY`
  text of today's date that it looks up, and the marker colour that
  `create_map` gives each status.
 */
module Availability {
  import opened Wrappers

  datatype Status = Available | Unavailable | Unknown {
    /** The string the source stores in `_availability`. */
    function Name(): string {
      match this
      case Available => "available"
      case Unavailable => "unavailable"
      case Unknown => "unknown"
    }
  }

  /** The three status strings are distinct, so a stored status string
      identifies its status. */
  lemma NameInjective(s: Status, t: Status)
    requires s.Name() == t.Name()
    ensures s == t
  {
  }

  /** `determine_availability(today, dates)`, with `today` already rendered
      as the `DD/MM/YYYY` string the source builds with `strftime`. */
  function DetermineAvailability(today: string, dates: Option<seq<string>>): (r: Status)
    ensures r == Unknown <==> dates.None? || dates.value == []
    ensures r == Available <==>
              dates.Some? && exists i :: 0 <= i < |dates.value| && dates.value[i] == today
    ensures r == Unavailable <==>
              dates.Some? && dates.value != []
              && forall i :: 0 <= i < |dates.value| ==> dates.value[i] != today
  {
    if dates.None? || dates.value == [] then Unknown
    else if today in dates.value then Available
    else Unavailable
  }

  /** Only which strings occur matters: order and duplicates in the date
      list do not change the status. */
  lemma StatusIgnoresOrder(today: string, ds: seq<string>, es: seq<string>)
    requires forall x :: x in ds <==> x in es
    ensures DetermineAvailability(today, Some(ds)) == DetermineAvailability(today, Some(es))
  {
    if ds != [] { assert ds[0] in es; }
    if es != [] { assert es[0] in ds; }
  }

  // ---- DD/MM/YYYY -------------------------------------------------------

  function Digit(n: nat): (c: char)
    requires n < 10
    ensures '0' <= c <= '9'
  {
    ('0' as int + n) as char
  }

  function DigitValue(c: char): nat
    requires '0' <= c <= '9'
  {
    c as int - '0' as int
  }

  predicate AllDigits(s: string) {
    forall i :: 0 <= i < |s| ==> '0' <= s[i] <= '9'
  }

  /** The number a string of decimal digits denotes. */
  function DecimalValue(s: string): nat
    requires AllDigits(s)
  {
    if s == [] then 0 else 10 * DecimalValue(s[..|s| - 1]) + DigitValue(s[|s| - 1])
  }

  /** `n` in `width` decimal digits, with leading zeros. */
  function Padded(n: nat, width: nat): (s: string)
    requires n < Pow10(width)
    ensures |s| == width && AllDigits(s)
  {
    if width == 0 then [] else Padded(n / 10, width - 1) + [Digit(n % 10)]
  }

  /** Reading the padded digits back gives the number. */
  lemma {:induction false} PaddedValue(n: nat, width: nat)
    requires n < Pow10(width)
    ensures DecimalValue(Padded(n, width)) == n
  {
    if width > 0 {
      var s := Padded(n, width);
      assert s[..|s| - 1] == Padded(n / 10, width - 1);
      PaddedValue(n / 10, width - 1);
    }
  }

  function Pow10(k: nat): (p: nat)
    ensures p >= 1
  {
    if k == 0 then 1 else 10 * Pow10(k - 1)
  }

  /** `date.strftime("%d/%m/%Y")` for a day of month, a month and a four-digit year. */
  function FormatDate(day: nat, month: nat, year: nat): (r: string)
    requires 1 <= day <= 31 && 1 <= month <= 12 && 1000 <= year <= 9999
    ensures |r| == 10 && r[2] == '/' && r[5] == '/'
    ensures AllDigits(r[0..2]) && AllDigits(r[3..5]) && AllDigits(r[6..10])
    ensures DecimalValue(r[0..2]) == day
    ensures DecimalValue(r[3..5]) == month
    ensures DecimalValue(r[6..10]) == year
  {
    assert Pow10(2) == 100 && Pow10(4) == 10000;
    var d := Padded(day, 2);
    var m := Padded(month, 2);
    var y := Padded(year, 4);
    PaddedValue(day, 2);
    PaddedValue(month, 2);
    PaddedValue(year, 4);
    SlashJoin(d, m, y);
    d + "/" + m + "/" + y
  }

  lemma SlashJoin(d: string, m: string, y: string)
    requires |d| == 2 && |m| == 2 && |y| == 4
    ensures var r := d + "/" + m + "/" + y;
            && |r| == 10 && r[2] == '/' && r[5] == '/'
            && r[0..2] == d && r[3..5] == m && r[6..10] == y
  {
  }

  /** Different dates never render to the same string, so membership of
      today's string means membership of today's date. */
  lemma FormatDateInjective(d1: nat, m1: nat, y1: nat, d2: nat, m2: nat, y2: nat)
    requires 1 <= d1 <= 31 && 1 <= m1 <= 12 && 1000 <= y1 <= 9999
    requires 1 <= d2 <= 31 && 1 <= m2 <= 12 && 1000 <= y2 <= 9999
    requires FormatDate(d1, m1, y1) == FormatDate(d2, m2, y2)
    ensures d1 == d2 && m1 == m2 && y1 == y2
  {
  }

  lemma FormatDateExample()
    ensures FormatDate(1, 5, 2024) == "01/05/2024"
  {
  }

  /** Today 2024-05-01 against a list holding that day. */
  lemma AvailableExample()
    ensures DetermineAvailability(FormatDate(1, 5, 2024), Some(["01/05/2024"])) == Available
  {
    FormatDateExample();
  }

  /** Today 2024-05-01 against a list holding only the next day. */
  lemma UnavailableExample()
    ensures DetermineAvailability(FormatDate(1, 5, 2024), Some(["02/05/2024"])) == Unavailable
  {
    FormatDateExample();
    assert "01/05/2024"[1] != "02/05/2024"[1];
  }

  // ---- marker colours ---------------------------------------------------

  /** The colour table of `create_map`, looked up with `.get(status, "gray")`. */
  function Colour(status: string): (c: string)
    ensures c == "green" <==> status == Available.Name()
    ensures c == "red" <==> status == Unavailable.Name()
    ensures c == "gray" <==> status != Available.Name() && status != Unavailable.Name()
  {
    var table := map["available" := "green", "unavailable" := "red", "unknown" := "gray"];
    if status in table then table[status] else "gray"
  }

}
