/** The display formatters: phone grouping, truncation with an ellipsis,
    elapsed time in words and the day/month/year rendering. The clock and
    `Date` parsing stay outside: `formatTimeAgo` takes the elapsed
    milliseconds and `formatDate` the calendar fields a `Date` reports. */
module Formatters {
  import opened Text

  // ---------------------------------------------------------------------
  // formatPhone

  /** `phone.replace(/\D/g, '')`. */
  function Cleaned(phone: string): (r: string)
    ensures AllDigits(r)
  {
    Filter(phone, IsDigit)
  }

  /** `formatPhone(phone)`: ten digits are grouped 4-3-3; anything else is
      returned as given. */
  function FormatPhone(phone: string): (r: string)
    ensures var c := Cleaned(phone);
      && (|c| == 10 ==> |r| == 12 && r[4] == ' ' && r[8] == ' ' && r[..4] + r[5..8] + r[9..] == c)
      && (|c| != 10 ==> r == phone)
  {
    var c := Cleaned(phone);
    if |c| == 10 then
      var r := c[..4] + " " + c[4..7] + " " + c[7..];
      assert r[..4] == c[..4] && r[5..8] == c[4..7] && r[9..] == c[7..];
      assert c[..4] + c[4..7] + c[7..] == c;
      r
    else phone
  }

  predicate NotSpace(c: char) {
    c != ' '
  }

  /** With ten digits the result is twelve characters, spaces at 4 and 8,
      and holds the digits and nothing else: take out the spaces, or keep
      the digits, and the cleaned number comes back. */
  lemma PhoneGrouped(phone: string)
    requires |Cleaned(phone)| == 10
    ensures var r, c := FormatPhone(phone), Cleaned(phone);
      && |r| == 12 && r[4] == ' ' && r[8] == ' '
      && Filter(r, NotSpace) == c
      && Filter(r, IsDigit) == c
  {
    var c := Cleaned(phone);
    var a, b, d := c[..4], c[4..7], c[7..];
    assert c == a + b + d;
    GroupsFilter(a, b, d, NotSpace);
    GroupsFilter(a, b, d, IsDigit);
  }

  /** Filtering the grouped text drops exactly the two spaces when `keep`
      holds of every digit and not of a space. */
  lemma GroupsFilter(a: string, b: string, d: string, keep: char -> bool)
    requires AllDigits(a + b + d) && !keep(' ')
    requires forall c :: IsDigit(c) ==> keep(c)
    ensures Filter(a + " " + b + " " + d, keep) == a + b + d
  {
    var s := a + b + d;
    assert AllDigits(a) by { assert forall i :: 0 <= i < |a| ==> a[i] == s[i]; }
    assert AllDigits(b) by { assert forall i :: 0 <= i < |b| ==> b[i] == s[|a| + i]; }
    assert AllDigits(d) by { assert forall i :: 0 <= i < |d| ==> d[i] == s[|a| + |b| + i]; }
    KeepsDigits(a, keep);
    KeepsDigits(b, keep);
    KeepsDigits(d, keep);
    FilterNone(" ", keep);
    FilterConcat(a, " ", keep);
    var x := a + " ";
    assert Filter(x, keep) == a;
    FilterConcat(x, b, keep);
    var y := x + b;
    assert Filter(y, keep) == a + b;
    FilterConcat(y, " ", keep);
    var z := y + " ";
    assert Filter(z, keep) == a + b;
    FilterConcat(z, d, keep);
    assert z + d == a + " " + b + " " + d;
  }

  /** A digit string is kept whole by a filter that keeps every digit. */
  lemma KeepsDigits(t: string, keep: char -> bool)
    requires AllDigits(t)
    requires forall c :: IsDigit(c) ==> keep(c)
    ensures Filter(t, keep) == t
  {
    FilterAll(t, keep);
  }

  /** Unless it has exactly ten digits, the input comes back unchanged, not
      its cleaned form. */
  lemma PhoneOtherwiseUnchanged(phone: string)
    requires |Cleaned(phone)| != 10
    ensures FormatPhone(phone) == phone
  {
  }

  /** Formatting a formatted number changes nothing. */
  lemma PhoneIdempotent(phone: string)
    ensures FormatPhone(FormatPhone(phone)) == FormatPhone(phone)
  {
    if |Cleaned(phone)| == 10 {
      PhoneGrouped(phone);
    }
  }

  // ---------------------------------------------------------------------
  // truncateText

  /** `s.slice(0, end)`: a negative end counts from the back, and the end
      is clamped to the string. */
  function SliceTo(s: string, end: int): (r: string)
    ensures |r| <= |s| && r == s[..|r|]
    ensures 0 <= end <= |s| ==> |r| == end
    ensures end < 0 ==> |r| == if |s| + end < 0 then 0 else |s| + end
  {
    var e := if end < 0 then (if |s| + end < 0 then 0 else |s| + end)
             else if end > |s| then |s| else end;
    s[..e]
  }

  const Ellipsis: string := "..."

  /** `truncateText(text, maxLength)`. */
  function TruncateText(text: string, maxLength: int): (r: string)
    ensures |text| <= maxLength ==> r == text
    ensures |text| > maxLength ==>
      && |r| >= 3 && |r| - 3 <= |text|
      && r[..|r| - 3] == text[..|r| - 3] && r[|r| - 3..] == Ellipsis
  {
    if |text| <= maxLength then text else SliceTo(text, maxLength) + Ellipsis
  }

  /** Text that fits is returned unchanged. */
  lemma TruncateFits(text: string, maxLength: int)
    requires |text| <= maxLength
    ensures TruncateText(text, maxLength) == text
  {
  }

  /** Longer text keeps its first `maxLength` characters and gains the
      ellipsis: `maxLength + 3` characters in all. */
  lemma TruncateCuts(text: string, maxLength: nat)
    requires |text| > maxLength
    ensures var r := TruncateText(text, maxLength);
      && |r| == maxLength + 3
      && r[..maxLength] == text[..maxLength]
      && r[maxLength..] == Ellipsis
  {
  }

  /** A negative bound drops that many characters from the back (all of
      them when it exceeds the length) before the ellipsis. */
  lemma TruncateNegative(text: string, maxLength: int)
    requires maxLength < 0
    ensures var keep := if |text| + maxLength < 0 then 0 else |text| + maxLength;
      TruncateText(text, maxLength) == text[..keep] + Ellipsis
  {
  }

  /** Truncating again with the same bound changes nothing. */
  lemma TruncateIdempotent(text: string, maxLength: nat)
    ensures TruncateText(TruncateText(text, maxLength), maxLength) == TruncateText(text, maxLength)
  {
    if |text| > maxLength {
      TruncateCuts(text, maxLength);
      var r := TruncateText(text, maxLength);
      assert r[..maxLength] + Ellipsis == r;
    }
  }

  // ---------------------------------------------------------------------
  // formatTimeAgo

  const MsPerMinute: int := 60000
  const MsPerHour: int := 3600000
  const MsPerDay: int := 86400000

  /** `formatTimeAgo` on `diffMs = now - date`: the floor cascade seconds,
      minutes, hours, days, and the largest unit that is positive. */
  function FormatTimeAgo(diffMs: int): (r: string)
    ensures r == "Vừa xong" <==> diffMs < MsPerMinute
  {
    assert diffMs / 1000 / 60 == diffMs / MsPerMinute;
    var diffSec := diffMs / 1000;
    var diffMin := diffSec / 60;
    var diffHour := diffMin / 60;
    var diffDay := diffHour / 24;
    if diffDay > 0 then IntToString(diffDay) + " ngày trước"
    else if diffHour > 0 then IntToString(diffHour) + " giờ trước"
    else if diffMin > 0 then IntToString(diffMin) + " phút trước"
    else "Vừa xong"
  }

  /** The cascade agrees with one division by the unit in milliseconds, so
      the buckets are: a day or more, an hour or more, a minute or more,
      and everything else (negative differences included). */
  lemma TimeAgoBuckets(diffMs: int)
    ensures diffMs >= MsPerDay ==>
      FormatTimeAgo(diffMs) == IntToString(diffMs / MsPerDay) + " ngày trước"
    ensures MsPerHour <= diffMs < MsPerDay ==>
      FormatTimeAgo(diffMs) == IntToString(diffMs / MsPerHour) + " giờ trước" &&
      1 <= diffMs / MsPerHour <= 23
    ensures MsPerMinute <= diffMs < MsPerHour ==>
      FormatTimeAgo(diffMs) == IntToString(diffMs / MsPerMinute) + " phút trước" &&
      1 <= diffMs / MsPerMinute <= 59
    ensures diffMs < MsPerMinute ==> FormatTimeAgo(diffMs) == "Vừa xong"
  {
    assert diffMs / 1000 / 60 == diffMs / MsPerMinute;
    assert diffMs / MsPerMinute / 60 == diffMs / MsPerHour;
    assert diffMs / MsPerHour / 24 == diffMs / MsPerDay;
  }

  // ---------------------------------------------------------------------
  // formatDate

  /** `n.toString().padStart(2, '0')`. */
  function Pad2(n: int): string {
    PadStart(IntToString(n), 2, '0')
  }

  /** `${day}/${month}/${year}`. */
  function DatePart(day: int, month0: int, year: int): string {
    Pad2(day) + "/" + Pad2(month0 + 1) + "/" + IntToString(year)
  }

  /** ` ${hours}:${minutes}`. */
  function TimePart(hours: int, minutes: int): string {
    " " + Pad2(hours) + ":" + Pad2(minutes)
  }

  /** `formatDate` on the fields of the `Date`: the day, the zero-based month
      (`getMonth()`), the year, the hours and the minutes. */
  function FormatDate(day: int, month0: int, year: int, hours: int, minutes: int,
                      includeTime: bool): (r: string)
    ensures var d := DatePart(day, month0, year);
      && |r| >= |d| && r[..|d|] == d
      && (includeTime <==> |r| > |d|)
      && (includeTime ==> r[|d|] == ' ')
  {
    DatePart(day, month0, year) + (if includeTime then TimePart(hours, minutes) else "")
  }

  /** A number below 100 is rendered in exactly two digits that read back as
      the number. */
  lemma TwoDigits(n: int)
    requires 0 <= n < 100
    ensures |Pad2(n)| == 2 && AllDigits(Pad2(n)) && DigitsValue(Pad2(n)) == n
  {
    var s := IntToString(n);
    NatToStringRoundTrip(n);
    if n < 10 {
      assert s == [DigitChar(n)];
      assert Pad2(n) == "0" + s;
      LeadingZero(s);
    } else {
      assert Pow10(2) == 100;
      NatToStringLength(n, 1);
    }
  }

  /** Where the pieces of `p/q/y` sit when `p` and `q` have two characters. */
  lemma DateLayout(p: string, q: string, y: string)
    requires |p| == 2 && |q| == 2
    ensures var r := p + "/" + q + "/" + y;
      |r| == 6 + |y| && r[..2] == p && r[2] == '/' && r[3..5] == q && r[5] == '/' && r[6..] == y
  {
  }

  /** Where the pieces of ` h:m` sit when `h` and `m` have two characters. */
  lemma TimeLayout(h: string, m: string)
    requires |h| == 2 && |m| == 2
    ensures var r := " " + h + ":" + m;
      |r| == 6 && r[0] == ' ' && r[1..3] == h && r[3] == ':' && r[4..] == m
  {
  }

  /** Within the calendar ranges the date reads back: two digits of day,
      `/`, two digits of the one-based month, `/`, the year unpadded. */
  lemma DateReadsBack(day: int, month0: int, year: int)
    requires 1 <= day <= 31 && 0 <= month0 <= 11
    ensures var r, y := DatePart(day, month0, year), IntToString(year);
      && |r| == 6 + |y| && r[2] == '/' && r[5] == '/' && r[6..] == y
      && AllDigits(r[..2]) && DigitsValue(r[..2]) == day
      && AllDigits(r[3..5]) && DigitsValue(r[3..5]) == month0 + 1
  {
    TwoDigits(day);
    TwoDigits(month0 + 1);
    DateLayout(Pad2(day), Pad2(month0 + 1), IntToString(year));
  }

  /** Within the clock ranges the time reads back: a space, two digits of
      hours, `:`, two digits of minutes. */
  lemma TimeReadsBack(hours: int, minutes: int)
    requires 0 <= hours <= 23 && 0 <= minutes <= 59
    ensures var r := TimePart(hours, minutes);
      && |r| == 6 && r[0] == ' ' && r[3] == ':'
      && AllDigits(r[1..3]) && DigitsValue(r[1..3]) == hours
      && AllDigits(r[4..]) && DigitsValue(r[4..]) == minutes
  {
    TwoDigits(hours);
    TwoDigits(minutes);
    TimeLayout(Pad2(hours), Pad2(minutes));
  }

  /** Without the time the result is the date alone; with it, the date
      followed by six characters of time. */
  lemma TimeExtendsDate(day: int, month0: int, year: int, hours: int, minutes: int)
    requires 0 <= hours <= 23 && 0 <= minutes <= 59
    ensures var plain := FormatDate(day, month0, year, hours, minutes, false);
      var timed := FormatDate(day, month0, year, hours, minutes, true);
      && plain == DatePart(day, month0, year)
      && |timed| == |plain| + 6 && timed[..|plain|] == plain && timed[|plain|..] == TimePart(hours, minutes)
  {
    TimeReadsBack(hours, minutes);
    Extends(DatePart(day, month0, year), TimePart(hours, minutes));
  }

  lemma Extends(p: string, t: string)
    ensures p + "" == p
    ensures |p + t| == |p| + |t| && (p + t)[..|p|] == p && (p + t)[|p|..] == t
  {
  }
}
