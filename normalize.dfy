/** `transformAlbums`: project every raw album onto the eight published keys
    and parse its `release_date` (as `YYYY-MM-DD`, `YYYY-MM` or `YYYY`) into a
    UTC calendar date. */
module Normalize {
  import opened Seqs
  import opened Upstream

  /** A UTC calendar date at midnight, or the Invalid Date that a failed parse
      yields (parsing never throws). */
  datatype Date = Date(year: int, month: int, day: int) | InvalidDate

  /** A normalised album: the picked fields other than `release_date`, and the
      parsed `release_date`, which is always set. */
  datatype Album = Album(fields: map<string, Json>, releaseDate: Date)

  const ReleaseDateKey := "release_date"

  /** The keys `transformAlbums` keeps. */
  const PickedKeys: set<string> :=
    {"album_type", "artists", "external_urls", "href", "id", "images", "name", "release_date"}

  /** The keys a normalised album carries. */
  function Keys(a: Album): set<string>
  {
    a.fields.Keys + {ReleaseDateKey}
  }

  predicate LeapYear(y: int)
  {
    y % 4 == 0 && (y % 100 != 0 || y % 400 == 0)
  }

  function DaysInMonth(y: int, m: int): int
    requires 1 <= m <= 12
  {
    if m == 2 then (if LeapYear(y) then 29 else 28)
    else if m == 4 || m == 6 || m == 9 || m == 11 then 30
    else 31
  }

  /** A day that exists in the Gregorian calendar. */
  predicate ValidDate(y: int, m: int, d: int)
  {
    1 <= m <= 12 && 1 <= d <= DaysInMonth(y, m)
  }

  /** The date one format reads from its year, month and day fields, or the
      Invalid Date when a field overflows (moment's overflow check), which
      rules that format out. */
  function CalendarDate(y: int, m: int, d: int): (r: Date)
    ensures r.Date? <==> ValidDate(y, m, d)
    ensures r.Date? ==> r.year == y && r.month == m && r.day == d
  {
    if ValidDate(y, m, d) then Date(y, m, d) else InvalidDate
  }

  predicate IsDigit(c: char)
  {
    '0' <= c <= '9'
  }

  predicate AllDigits(s: string)
  {
    forall i :: 0 <= i < |s| ==> IsDigit(s[i])
  }

  /** The decimal value of a digit string. */
  function DigitsValue(s: string): nat
    requires AllDigits(s)
  {
    if |s| == 0 then 0
    else DigitsValue(s[..|s| - 1]) * 10 + (s[|s| - 1] as int - '0' as int)
  }

  /** `n` written with exactly `width` decimal digits, zero-padded. */
  function Digits(n: nat, width: nat): (s: string)
    ensures |s| == width && AllDigits(s)
  {
    if width == 0 then ""
    else Digits(n / 10, width - 1) + [('0' as int + n % 10) as char]
  }

  function Pow10(k: nat): nat
  {
    if k == 0 then 1 else 10 * Pow10(k - 1)
  }

  lemma {:induction false} DigitsValueOfDigits(n: nat, width: nat)
    requires n < Pow10(width)
    ensures DigitsValue(Digits(n, width)) == n
  {
    if width > 0 {
      var s := Digits(n, width);
      assert s[..|s| - 1] == Digits(n / 10, width - 1);
      DigitsValueOfDigits(n / 10, width - 1);
    }
  }

  lemma {:induction false} DigitsOfDigitsValue(s: string)
    requires AllDigits(s)
    ensures DigitsValue(s) < Pow10(|s|)
    ensures Digits(DigitsValue(s), |s|) == s
  {
    if |s| > 0 {
      var init := s[..|s| - 1];
      assert AllDigits(init);
      DigitsOfDigitsValue(init);
      var v := DigitsValue(s);
      assert v / 10 == DigitsValue(init);
      assert s == init + [s[|s| - 1]];
    }
  }

  /** A four-digit year lies in 0..9999. */
  lemma YearRange(s: string)
    requires |s| == 4 && AllDigits(s)
    ensures DigitsValue(s) <= 9999
  {
    DigitsOfDigitsValue(s);
    assert Pow10(4) == 10000 by {
      assert Pow10(2) == 100;
    }
  }

  /** The `YYYY-MM-DD` shape. */
  predicate FullDateShape(s: string)
  {
    |s| == 10 && AllDigits(s[..4]) && s[4] == '-' && AllDigits(s[5..7]) && s[7] == '-' && AllDigits(s[8..])
  }

  /** The `YYYY-MM` shape. */
  predicate YearMonthShape(s: string)
  {
    |s| == 7 && AllDigits(s[..4]) && s[4] == '-' && AllDigits(s[5..7])
  }

  /** The `YYYY` shape. */
  predicate YearShape(s: string)
  {
    |s| == 4 && AllDigits(s)
  }

  /** One of the three shapes of the format list. */
  predicate DateShape(s: string)
  {
    FullDateShape(s) || YearMonthShape(s) || YearShape(s)
  }

  /** Of two candidate readings, the first unless its fields overflow. */
  function Prefer(a: Date, b: Date): Date
  {
    if a.Date? then a else b
  }

  /** `moment.utc(s, ['YYYY-MM-DD', 'YYYY-MM', 'YYYY'])` on the three exact
      shapes. moment tries every format without strict matching: text left
      over, or a format token left unmatched, only lowers that format's
      score, and a format whose fields do not overflow beats one whose fields
      do. So the format of the string's own shape wins when its date exists.
      When the day of a full date overflows, `YYYY-MM` wins and reads
      (Y, M, 1); when the month overflows, only `YYYY` is left and reads
      (Y, 1, 1). Any other string gives the Invalid Date. */
  function ParseReleaseDate(s: string): (d: Date)
    ensures d.Date? <==> DateShape(s)
    ensures d.Date? ==> ValidDate(d.year, d.month, d.day) && 0 <= d.year <= 9999
  {
    if FullDateShape(s) then
      YearRange(s[..4]);
      var y, m := DigitsValue(s[..4]), DigitsValue(s[5..7]);
      Prefer(CalendarDate(y, m, DigitsValue(s[8..])), Prefer(CalendarDate(y, m, 1), CalendarDate(y, 1, 1)))
    else if YearMonthShape(s) then
      YearRange(s[..4]);
      var y := DigitsValue(s[..4]);
      Prefer(CalendarDate(y, DigitsValue(s[5..7]), 1), CalendarDate(y, 1, 1))
    else if YearShape(s) then
      YearRange(s);
      CalendarDate(DigitsValue(s), 1, 1)
    else InvalidDate
  }

  /** The three textual forms of a date. */
  function FullDateText(y: nat, m: nat, d: nat): string
  {
    Digits(y, 4) + "-" + Digits(m, 2) + "-" + Digits(d, 2)
  }

  function YearMonthText(y: nat, m: nat): string
  {
    Digits(y, 4) + "-" + Digits(m, 2)
  }

  function YearText(y: nat): string
  {
    Digits(y, 4)
  }

  /** Each textual form has its shape, and its fields read back as the
      numbers it was written from. */
  lemma TextFields(y: nat, m: nat, d: nat)
    requires y <= 9999 && m < 100 && d < 100
    ensures var full := FullDateText(y, m, d);
            && FullDateShape(full)
            && DigitsValue(full[..4]) == y && DigitsValue(full[5..7]) == m && DigitsValue(full[8..]) == d
    ensures var ym := YearMonthText(y, m);
            && !FullDateShape(ym) && YearMonthShape(ym)
            && DigitsValue(ym[..4]) == y && DigitsValue(ym[5..7]) == m
    ensures !FullDateShape(YearText(y)) && !YearMonthShape(YearText(y)) && YearShape(YearText(y))
    ensures DigitsValue(YearText(y)) == y
  {
    assert Pow10(2) == 100 && Pow10(4) == 10000 by {
      assert Pow10(1) == 10;
      assert Pow10(3) == 1000;
    }
    DigitsValueOfDigits(y, 4);
    DigitsValueOfDigits(m, 2);
    DigitsValueOfDigits(d, 2);
    var full := FullDateText(y, m, d);
    assert full[..4] == Digits(y, 4) && full[5..7] == Digits(m, 2) && full[8..] == Digits(d, 2);
    var ym := YearMonthText(y, m);
    assert ym[..4] == Digits(y, 4) && ym[5..7] == Digits(m, 2);
  }

  /** Every valid date of years 0..9999 is read back from each of its three
      textual forms: `Y-M-D` as (Y, M, D), `Y-M` as (Y, M, 1), `Y` as
      (Y, 1, 1). */
  lemma ParseRendered(y: nat, m: nat, d: nat)
    requires y <= 9999 && ValidDate(y, m, d)
    ensures ParseReleaseDate(FullDateText(y, m, d)) == Date(y, m, d)
    ensures ParseReleaseDate(YearMonthText(y, m)) == Date(y, m, 1)
    ensures ParseReleaseDate(YearText(y)) == Date(y, 1, 1)
  {
    TextFields(y, m, d);
  }

  /** A field that overflows makes moment fall back to a shorter format: an
      overflowing day to `YYYY-MM`, read as (Y, M, 1), and an overflowing
      month to `YYYY`, read as (Y, 1, 1). */
  lemma ParseOverflow(y: nat, m: nat, d: nat)
    requires y <= 9999 && m < 100 && d < 100
    ensures 1 <= m <= 12 && !ValidDate(y, m, d) ==> ParseReleaseDate(FullDateText(y, m, d)) == Date(y, m, 1)
    ensures !(1 <= m <= 12) ==> ParseReleaseDate(FullDateText(y, m, d)) == Date(y, 1, 1)
    ensures !(1 <= m <= 12) ==> ParseReleaseDate(YearMonthText(y, m)) == Date(y, 1, 1)
  {
    TextFields(y, m, d);
  }

  /** Conversely, a string that parses to a date is that date's full form,
      its `Y-M` or `Y` form, or a full or `Y-M` form whose day or month
      overflows and that starts with the date's `Y-M` or `Y` form: nothing
      else is accepted. */
  lemma ParsedIsRendered(s: string)
    requires ParseReleaseDate(s).Date?
    ensures var d := ParseReleaseDate(s);
            || s == FullDateText(d.year, d.month, d.day)
            || (d.day == 1 && s == YearMonthText(d.year, d.month))
            || (d.month == 1 && d.day == 1 && s == YearText(d.year))
            || (&& d.day == 1 && FullDateShape(s) && s[..7] == YearMonthText(d.year, d.month)
                && !ValidDate(d.year, d.month, DigitsValue(s[8..])))
            || (&& d.month == 1 && d.day == 1 && (FullDateShape(s) || YearMonthShape(s))
                && s[..4] == YearText(d.year) && !(1 <= DigitsValue(s[5..7]) <= 12))
  {
    if FullDateShape(s) {
      DigitsOfDigitsValue(s[..4]);
      DigitsOfDigitsValue(s[5..7]);
      DigitsOfDigitsValue(s[8..]);
      assert s[..7] == s[..4] + "-" + s[5..7];
      assert s == s[..4] + "-" + s[5..7] + "-" + s[8..];
    } else if YearMonthShape(s) {
      DigitsOfDigitsValue(s[..4]);
      DigitsOfDigitsValue(s[5..7]);
      assert s == s[..4] + "-" + s[5..7];
    } else {
      DigitsOfDigitsValue(s);
    }
  }

  /** The parsed `release_date` of a raw album: it is a date exactly when
      the album has a string `release_date` in one of the three shapes;
      absent or non-string values give the Invalid Date. */
  function ReleaseDateOf(raw: RawAlbum): (d: Date)
    ensures d.Date? <==> ReleaseDateKey in raw && raw[ReleaseDateKey].JString? && DateShape(raw[ReleaseDateKey].s)
    ensures d.Date? ==> ValidDate(d.year, d.month, d.day)
  {
    if ReleaseDateKey in raw && raw[ReleaseDateKey].JString? then ParseReleaseDate(raw[ReleaseDateKey].s)
    else InvalidDate
  }

  /** One album of `transformAlbums`: lodash `_.pick` onto the eight keys,
      then `release_date` overwritten with the parsed date. */
  function TransformAlbum(raw: RawAlbum): (a: Album)
    ensures Keys(a) <= PickedKeys && ReleaseDateKey in Keys(a)
    ensures a.fields.Keys == raw.Keys * (PickedKeys - {ReleaseDateKey})
    ensures forall k :: k in a.fields ==> a.fields[k] == raw[k]
    ensures a.releaseDate == ReleaseDateOf(raw)
  {
    Album(map k | k in raw && k in PickedKeys && k != ReleaseDateKey :: raw[k], ReleaseDateOf(raw))
  }

  /** `transformAlbums`: the albums one for one, in input order. */
  function TransformAlbums(albums: seq<RawAlbum>): (r: seq<Album>)
    ensures |r| == |albums|
    ensures forall i :: 0 <= i < |r| ==> r[i] == TransformAlbum(albums[i])
  {
    MapSeq(TransformAlbum, albums)
  }

  /** Every normalised album carries only published keys, among them
      `release_date`; every other picked key present in the raw album keeps
      its value. */
  lemma TransformAlbumsKeys(albums: seq<RawAlbum>, i: nat)
    requires i < |albums|
    ensures var a := TransformAlbums(albums)[i];
            Keys(a) == (albums[i].Keys * PickedKeys) + {ReleaseDateKey}
            && Keys(a) <= PickedKeys
  {
    var a := TransformAlbums(albums)[i];
    assert a == TransformAlbum(albums[i]);
  }

  /** The release date `2020-05-15` becomes 2020-05-15. */
  lemma ParseFullDateExample()
    ensures ParseReleaseDate("2020-05-15") == Date(2020, 5, 15)
  {
    var y, m, d := Digits(2020, 4), Digits(5, 2), Digits(15, 2);
    assert y == "2020";
    assert m == "05";
    assert d == "15";
    assert y + "-" + m + "-" + d == "2020-05-15";
    ParseRendered(2020, 5, 15);
  }

  /** The release date `2020-05` becomes 2020-05-01. */
  lemma ParseYearMonthExample()
    ensures ParseReleaseDate("2020-05") == Date(2020, 5, 1)
  {
    assert YearMonthText(2020, 5) == "2020-05" by {
      assert Digits(2020, 4) == "2020" && Digits(5, 2) == "05";
    }
    ParseRendered(2020, 5, 1);
  }

  /** The release date `2020` becomes 2020-01-01. */
  lemma ParseYearExample()
    ensures ParseReleaseDate("2020") == Date(2020, 1, 1)
  {
    assert YearText(2020) == "2020";
    ParseRendered(2020, 1, 1);
  }

  /** `2021-02-29` names no day: the day overflows and `YYYY-MM` reads it as
      2021-02-01. */
  lemma ParseDayOverflowExample()
    ensures ParseReleaseDate("2021-02-29") == Date(2021, 2, 1)
  {
    var y, m, d := Digits(2021, 4), Digits(2, 2), Digits(29, 2);
    assert y == "2021";
    assert m == "02";
    assert d == "29";
    assert y + "-" + m + "-" + d == "2021-02-29";
    ParseOverflow(2021, 2, 29);
  }

  /** The month 13 overflows: `2020-13` and `2020-13-01` are both read by
      `YYYY` as 2020-01-01. */
  lemma ParseMonthOverflowExample()
    ensures ParseReleaseDate("2020-13") == Date(2020, 1, 1)
    ensures ParseReleaseDate("2020-13-01") == Date(2020, 1, 1)
  {
    var y, m, d := Digits(2020, 4), Digits(13, 2), Digits(1, 2);
    assert y == "2020";
    assert m == "13";
    assert d == "01";
    assert y + "-" + m == "2020-13";
    assert y + "-" + m + "-" + d == "2020-13-01";
    ParseOverflow(2020, 13, 1);
  }

  /** Text in none of the three shapes, such as `not-a-date`, gives the
      Invalid Date. */
  lemma ParseRejects()
    ensures ParseReleaseDate("not-a-date") == InvalidDate
  {
    var bad := "not-a-date";
    assert !IsDigit(bad[0]);
    assert !AllDigits(bad[..4]) by {
      assert bad[..4][0] == 'n';
    }
  }
}
