/** Timestamps of stored objects: the printer, the parser, and the age filter built on them. */
module Timestamp {
  import opened Core
  import opened Calendar
  import opened BlobAge

  // ---------------------------------------------------------------------------
  // Numbers
  // ---------------------------------------------------------------------------

  function DigitChar(d: nat): char
    requires d < 10
  {
    ('0' as int + d) as char
  }

  predicate IsDigit(c: char) {
    '0' <= c <= '9'
  }

  function Decimal(n: nat): (s: string)
    ensures |s| >= 1 && forall i :: 0 <= i < |s| ==> IsDigit(s[i])
  {
    if n < 10 then [DigitChar(n)] else Decimal(n / 10) + [DigitChar(n % 10)]
  }

  function Zeros(n: nat): (s: string)
    ensures |s| == n && forall i :: 0 <= i < n ==> s[i] == '0'
  {
    if n == 0 then "" else "0" + Zeros(n - 1)
  }

  /** `{n:0width}`. */
  function Padded(n: nat, width: nat): (s: string)
    ensures |s| >= width && |s| >= 1 && forall i :: 0 <= i < |s| ==> IsDigit(s[i])
  {
    var d := Decimal(n);
    if |d| >= width then d else Zeros(width - |d|) + d
  }

  function ParseDigits(s: string): Option<nat> {
    if s == "" then Some(0)
    else
      var last := s[|s| - 1];
      match ParseDigits(s[..|s| - 1])
      case None => None
      case Some(n) => if IsDigit(last) then Some(10 * n + (last as int - '0' as int)) else None
  }

  /** `str::parse::<u64>` on the short fields met here: an optional plus sign, then digits. */
  function ParseNumber(s: string): Option<nat> {
    if s == "" || s == "+" then None
    else if s[0] == '+' then ParseDigits(s[1..])
    else ParseDigits(s)
  }

  lemma {:induction false} ParseDecimal(n: nat)
    ensures ParseDigits(Decimal(n)) == Some(n)
  {
    if n >= 10 {
      ParseDecimal(n / 10);
      var s := Decimal(n / 10) + [DigitChar(n % 10)];
      assert s[..|s| - 1] == Decimal(n / 10);
    } else {
      assert Decimal(n)[..0] == "";
    }
  }

  lemma {:induction false} ParseAfterZeros(k: nat, d: string)
    ensures ParseDigits(Zeros(k) + d) == ParseDigits(d)
    decreases k + |d|
  {
    if d == "" {
      assert Zeros(k) + d == Zeros(k);
      if k > 0 {
        ParseAfterZeros(k - 1, "");
        assert Zeros(k - 1) + "" == Zeros(k - 1);
        assert Zeros(k)[..k - 1] == Zeros(k - 1);
      }
    } else {
      ParseAfterZeros(k, d[..|d| - 1]);
      assert (Zeros(k) + d)[..k + |d| - 1] == Zeros(k) + d[..|d| - 1];
    }
  }

  lemma ParsePadded(n: nat, width: nat)
    ensures ParseNumber(Padded(n, width)) == Some(n)
  {
    ParseDecimal(n);
    var d := Decimal(n);
    if |d| < width {
      ParseAfterZeros(width - |d|, d);
    }
    assert IsDigit(Padded(n, width)[0]);
  }

  function Pow10(k: nat): nat {
    if k == 0 then 1 else 10 * Pow10(k - 1)
  }

  lemma {:induction false} DecimalLength(n: nat, k: nat)
    requires k >= 1
    ensures |Decimal(n)| <= k <==> n < Pow10(k)
  {
    if k == 1 {
      assert Pow10(1) == 10;
    } else if n >= 10 {
      DecimalLength(n / 10, k - 1);
    } else {
      PowerPositive(k - 1);
    }
  }

  lemma {:induction false} PowerPositive(k: nat)
    ensures Pow10(k) >= 1
  {
    if k > 0 {
      PowerPositive(k - 1);
    }
  }

  lemma PaddedLength(n: nat, width: nat)
    requires width >= 1
    ensures |Padded(n, width)| == width <==> n < Pow10(width)
    ensures n >= Pow10(width) ==> Padded(n, width) == Decimal(n) && |Decimal(n)| > width
  {
    DecimalLength(n, width);
  }

  lemma TwoDigits(n: nat)
    requires n < 100
    ensures |Padded(n, 2)| == 2
  {
    PaddedLength(n, 2);
    assert Pow10(2) == 100 by { assert Pow10(1) == 10; }
  }

  lemma ParseWithBadChar(s: string, i: nat)
    requires i < |s| && !IsDigit(s[i]) && (s[i] == '+' ==> i > 0)
    ensures ParseNumber(s).None?
  {
    if s[0] == '+' {
      if |s| > 1 {
        BadDigit(s[1..], i - 1);
      }
    } else {
      BadDigit(s, i);
    }
  }

  lemma {:induction false} BadDigit(s: string, i: nat)
    requires i < |s| && !IsDigit(s[i])
    ensures ParseDigits(s).None?
  {
    if i < |s| - 1 {
      BadDigit(s[..|s| - 1], i);
    }
  }

  // ---------------------------------------------------------------------------
  // Text
  // ---------------------------------------------------------------------------

  /** Unicode white space, which `trim` removes. */
  predicate IsSpace(c: char) {
    var n := c as int;
    || n == 32 || 9 <= n <= 13 || n == 0x85 || n == 0xA0 || n == 0x1680 || 0x2000 <= n <= 0x200A
    || n == 0x2028 || n == 0x2029 || n == 0x202F || n == 0x205F || n == 0x3000
  }

  lemma DigitIsNoSpace(c: char)
    requires IsDigit(c)
    ensures !IsSpace(c)
  {
  }

  function TrimLeft(s: string): string {
    if s != "" && IsSpace(s[0]) then TrimLeft(s[1..]) else s
  }

  function TrimRight(s: string): string {
    if s != "" && IsSpace(s[|s| - 1]) then TrimRight(s[..|s| - 1]) else s
  }

  function Trim(s: string): string {
    TrimRight(TrimLeft(s))
  }

  lemma {:induction false} TrimLeftSkips(lead: string, s: string)
    requires (forall i :: 0 <= i < |lead| ==> IsSpace(lead[i])) && s != "" && !IsSpace(s[0])
    ensures TrimLeft(lead + s) == s
    decreases |lead|
  {
    if lead == "" {
      assert lead + s == s;
    } else {
      TrimLeftSkips(lead[1..], s);
      assert (lead + s)[1..] == lead[1..] + s;
    }
  }

  lemma {:induction false} TrimRightKeeps(s: string, tail: string)
    requires s != "" && !IsSpace(s[|s| - 1])
    ensures s <= TrimRight(s + tail)
    ensures tail != "" && !IsSpace(tail[|tail| - 1]) ==> TrimRight(s + tail) == s + tail
    decreases |tail|
  {
    if tail == "" {
      assert s + tail == s;
    } else if IsSpace(tail[|tail| - 1]) {
      TrimRightKeeps(s, tail[..|tail| - 1]);
      assert (s + tail)[..|s + tail| - 1] == s + tail[..|tail| - 1];
    }
  }

  datatype Fields = Fields(year: nat, month: nat, day: nat, hour: nat, minute: nat, second: nat) {
    predicate InRange() {
      1 <= month <= 12 && 1 <= day <= 31 && hour <= 23 && minute <= 59 && second <= 60 && year >= 1970
    }

    function Seconds(): int
      requires InRange()
    {
      DayNumber(year, month, day) * 86_400 + hour * 3_600 + minute * 60 + second
    }
  }

  /** The fixed positions; of the separators only the one between date and time is looked at. */
  function ReadFields(t: string): Option<Fields>
    requires |t| >= 19
  {
    var year, month, day := ParseNumber(t[0..4]), ParseNumber(t[5..7]), ParseNumber(t[8..10]);
    var hour, minute, second := ParseNumber(t[11..13]), ParseNumber(t[14..16]), ParseNumber(t[17..19]);
    if t[10] != 'T' && t[10] != ' ' then None
    else if year.None? || month.None? || day.None? || hour.None? || minute.None? || second.None? then None
    else Some(Fields(year.value, month.value, day.value, hour.value, minute.value, second.value))
  }

  // ---------------------------------------------------------------------------
  // Any text: the fixed positions are byte offsets
  // ---------------------------------------------------------------------------

  /** Bytes of a character in UTF-8. */
  function Width(c: char): nat {
    var n := c as int;
    if n < 0x80 then 1 else if n < 0x800 then 2 else if n < 0x1_0000 then 3 else 4
  }

  function ByteLength(s: string): nat {
    if s == "" then 0 else Width(s[0]) + ByteLength(s[1..])
  }

  /** The character position of a byte offset; None if it lies inside a character or past the end. */
  function PositionOf(s: string, offset: nat): (r: Option<nat>)
    ensures r.Some? ==> r.value <= |s|
  {
    if offset == 0 then Some(0)
    else if s == "" || Width(s[0]) > offset then None
    else
      match PositionOf(s[1..], offset - Width(s[0]))
      case None => None
      case Some(i) => Some(i + 1)
  }

  datatype Field = Field(start: nat, end: nat) {
    /** Slicing here panics. */
    predicate Cuts(s: string) {
      PositionOf(s, start).None? || PositionOf(s, end).None? || PositionOf(s, start).value > PositionOf(s, end).value
    }

    function Number(s: string): Option<nat> {
      if Cuts(s) then None else ParseNumber(s[PositionOf(s, start).value..PositionOf(s, end).value])
    }
  }

  const DATE_FIELDS: seq<Field> := [Field(0, 4), Field(5, 7), Field(8, 10)]
  const TIME_FIELDS: seq<Field> := [Field(11, 13), Field(14, 16), Field(17, 19)]

  datatype Numbers = Broken | Missing | Numbers(ns: seq<nat>)

  /** One field after the other; the first bad one decides. */
  function ReadAll(s: string, fields: seq<Field>): (r: Numbers)
    ensures r.Numbers? ==> |r.ns| == |fields|
  {
    if fields == [] then Numbers([])
    else if fields[0].Cuts(s) then Broken
    else
      match fields[0].Number(s)
      case None => Missing
      case Some(n) =>
        match ReadAll(s, fields[1..])
        case Numbers(ns) => Numbers([n] + ns)
        case bad => bad
  }

  predicate SeparatorFits(s: string) {
    var i := PositionOf(s, 10);
    i.Some? && i.value < |s| && (s[i.value] == 'T' || s[i.value] == ' ')
  }

  /** What parsing comes to; the source panics where it slices inside a character. */
  datatype Reading = Panics | Unreadable | Epoch(seconds: int)

  method ParseIso8601ToEpoch(s: string) returns (r: Reading)
    ensures r == Read(s)
  {
    var t := Trim(s);
    if ByteLength(t) < 19 {
      return Unreadable;
    }
    var date := ReadAll(t, DATE_FIELDS);
    if !date.Numbers? {
      return if date.Broken? then Panics else Unreadable;
    }
    if !SeparatorFits(t) {
      return Unreadable;
    }
    var time := ReadAll(t, TIME_FIELDS);
    if !time.Numbers? {
      return if time.Broken? then Panics else Unreadable;
    }
    var f := Fields(date.ns[0], date.ns[1], date.ns[2], time.ns[0], time.ns[1], time.ns[2]);
    if !f.InRange() {
      return Unreadable;
    }
    var days := GregorianDaysSinceEpoch(f.year, f.month, f.day);
    r := Epoch(days.value * 86_400 + f.hour * 3_600 + f.minute * 60 + f.second);
  }

  function ReadTime(t: string, date: seq<nat>): Reading
    requires |date| == 3
  {
    match ReadAll(t, TIME_FIELDS)
    case Broken => Panics
    case Missing => Unreadable
    case Numbers(time) =>
      var f := Fields(date[0], date[1], date[2], time[0], time[1], time[2]);
      if f.InRange() then Epoch(f.Seconds()) else Unreadable
  }

  function Read(s: string): Reading {
    var t := Trim(s);
    if ByteLength(t) < 19 then Unreadable
    else
      match ReadAll(t, DATE_FIELDS)
      case Broken => Panics
      case Missing => Unreadable
      case Numbers(date) => if SeparatorFits(t) then ReadTime(t, date) else Unreadable
  }

  predicate IsAscii(s: string) {
    forall i :: 0 <= i < |s| ==> s[i] as int < 128
  }

  lemma {:induction false} AsciiPositions(s: string, n: nat, offset: nat)
    requires n <= |s| && IsAscii(s[..n]) && offset <= n
    ensures PositionOf(s, offset) == Some(offset)
  {
    if offset > 0 {
      assert s[0] == s[..n][0];
      assert s[1..][..n - 1] == s[..n][1..];
      AsciiPositions(s[1..], n - 1, offset - 1);
    }
  }

  lemma {:induction false} LengthInBytes(s: string)
    ensures ByteLength(s) >= |s| && (IsAscii(s) ==> ByteLength(s) == |s|)
  {
    if s != "" {
      LengthInBytes(s[1..]);
    }
  }

  lemma AsciiField(t: string, f: Field)
    requires |t| >= 19 && IsAscii(t[..19]) && f.start <= f.end <= 19
    ensures !f.Cuts(t) && f.Number(t) == ParseNumber(t[f.start..f.end])
  {
    AsciiPositions(t, 19, f.start);
    AsciiPositions(t, 19, f.end);
  }

  lemma ReadThree(t: string, a: Field, b: Field, c: Field)
    requires !a.Cuts(t) && !b.Cuts(t) && !c.Cuts(t)
    ensures ReadAll(t, [a, b, c])
      == if a.Number(t).None? || b.Number(t).None? || c.Number(t).None? then Missing
         else Numbers([a.Number(t).value, b.Number(t).value, c.Number(t).value])
  {
    assert [a, b, c][1..] == [b, c] && [b, c][1..] == [c] && [c][1..] == [];
    assert ReadAll(t, [c]) == if c.Number(t).None? then Missing else Numbers([c.Number(t).value]);
  }

  lemma AsciiDate(t: string)
    requires |t| >= 19 && IsAscii(t[..19])
    ensures var a, b, c := ParseNumber(t[0..4]), ParseNumber(t[5..7]), ParseNumber(t[8..10]);
      ReadAll(t, DATE_FIELDS)
      == if a.None? || b.None? || c.None? then Missing else Numbers([a.value, b.value, c.value])
  {
    AsciiField(t, Field(0, 4));
    AsciiField(t, Field(5, 7));
    AsciiField(t, Field(8, 10));
    ReadThree(t, Field(0, 4), Field(5, 7), Field(8, 10));
  }

  lemma AsciiTime(t: string)
    requires |t| >= 19 && IsAscii(t[..19])
    ensures var a, b, c := ParseNumber(t[11..13]), ParseNumber(t[14..16]), ParseNumber(t[17..19]);
      ReadAll(t, TIME_FIELDS)
      == if a.None? || b.None? || c.None? then Missing else Numbers([a.value, b.value, c.value])
  {
    AsciiField(t, Field(11, 13));
    AsciiField(t, Field(14, 16));
    AsciiField(t, Field(17, 19));
    ReadThree(t, Field(11, 13), Field(14, 16), Field(17, 19));
  }

  /** As long as the first 19 characters are ASCII, byte offsets are positions and nothing panics. */
  lemma ReadAscii(s: string)
    requires |Trim(s)| >= 19 && IsAscii(Trim(s)[..19])
    ensures Read(s) == match ReadFields(Trim(s))
      case None => Unreadable
      case Some(f) => if f.InRange() then Epoch(f.Seconds()) else Unreadable
  {
    var t := Trim(s);
    LengthInBytes(t);
    AsciiDate(t);
    AsciiTime(t);
    AsciiPositions(t, 19, 10);
  }

  predicate CutsAt(t: string, fields: seq<Field>, k: nat) {
    k < |fields| && fields[k].Cuts(t) && forall j :: 0 <= j < k ==> fields[j].Number(t).Some?
  }

  /** Slicing some field cuts a character in half, and every field before it is a number. */
  predicate CutFirst(t: string, fields: seq<Field>) {
    exists k :: 0 <= k < |fields| && CutsAt(t, fields, k)
  }

  lemma {:induction false} BrokenExactly(t: string, fields: seq<Field>)
    ensures ReadAll(t, fields).Broken? <==> CutFirst(t, fields)
    ensures ReadAll(t, fields).Numbers? <==> forall f :: f in fields ==> f.Number(t).Some?
  {
    if fields != [] {
      var f, rest := fields[0], fields[1..];
      BrokenExactly(t, rest);
      assert fields == [f] + rest;
      if f.Number(t).Some? {
        CutLater(t, f, rest);
      } else if f.Cuts(t) {
        assert CutsAt(t, fields, 0);
      }
    }
  }

  lemma CutLater(t: string, f: Field, rest: seq<Field>)
    requires f.Number(t).Some?
    ensures CutFirst(t, [f] + rest) <==> CutFirst(t, rest)
  {
    forall k: nat ensures CutsAt(t, [f] + rest, k + 1) <==> CutsAt(t, rest, k) {
      CutShifted(t, f, rest, k);
    }
    if CutFirst(t, rest) {
      var k :| 0 <= k < |rest| && CutsAt(t, rest, k);
      assert CutsAt(t, [f] + rest, k + 1);
    }
    if CutFirst(t, [f] + rest) {
      var k :| 0 <= k < |[f] + rest| && CutsAt(t, [f] + rest, k);
      assert CutsAt(t, rest, k - 1);
    }
  }

  lemma CutShifted(t: string, f: Field, rest: seq<Field>, k: nat)
    requires f.Number(t).Some?
    ensures CutsAt(t, [f] + rest, k + 1) <==> CutsAt(t, rest, k)
  {
    if CutsAt(t, [f] + rest, k + 1) {
      forall j | 0 <= j < k ensures rest[j].Number(t).Some? {
        assert ([f] + rest)[j + 1] == rest[j];
      }
    }
  }

  /**
   * The parser is documented to answer None where it cannot read the text. It panics instead exactly if the
   * text has 19 bytes or more, some field it comes to starts or ends inside a character, every field before
   * that is a number, and the separator, if it stands before that, is right.
   */
  lemma PanicsExactly(s: string)
    ensures var t := Trim(s);
      Read(s).Panics? <==>
      ByteLength(t) >= 19
      && (CutFirst(t, DATE_FIELDS)
          || ((forall f :: f in DATE_FIELDS ==> f.Number(t).Some?) && SeparatorFits(t) && CutFirst(t, TIME_FIELDS)))
  {
    BrokenExactly(Trim(s), DATE_FIELDS);
    BrokenExactly(Trim(s), TIME_FIELDS);
  }

  lemma {:induction false} PositionSkips(a: string, b: string, offset: nat)
    requires IsAscii(a) && offset > 0
    ensures PositionOf(a + b, |a| + offset).None? <==> PositionOf(b, offset).None?
  {
    if a == "" {
      assert a + b == b;
    } else {
      PositionSkips(a[1..], b, offset);
      assert (a + b)[1..] == a[1..] + b;
    }
  }

  /** So it does on `197`, a two-byte character and any 15 characters or more that do not end in white space. */
  lemma PanicsInYear(tail: string)
    requires |tail| >= 15 && !IsSpace(tail[|tail| - 1])
    ensures Read("197\U{E9}" + tail).Panics?
  {
    var t := "197\U{E9}" + tail;
    assert "" + t == t;
    TrimLeftSkips("", t);
    TrimRightKeeps("197\U{E9}", tail);
    LengthInBytes(t);
    PositionSkips("197", "\U{E9}" + tail, 1);
    assert "197" + ("\U{E9}" + tail) == t;
    assert PositionOf("\U{E9}" + tail, 1).None?;
    assert DATE_FIELDS[0].Cuts(t);
  }

  function DateText(d: Date): string {
    Padded(d.year, 4) + "-" + Padded(d.month, 2) + "-" + Padded(d.day, 2)
  }

  function TimeText(secs: nat): string {
    Padded(secs / 3_600, 2) + ":" + Padded(secs % 3_600 / 60, 2) + ":" + Padded(secs % 60, 2)
  }

  /** `YYYY-MM-DDTHH:MM:SS`, or with another separator in the middle. */
  function Stamp(secs: nat, sep: char): string {
    DateText(DateAfter(secs / 86_400)) + [sep] + TimeText(secs % 86_400)
  }

  method FormatEpochAsIso8601(secs: nat) returns (s: string)
    ensures s == Stamp(secs, 'T') + "Z"
  {
    var timeOfDay := secs % 86_400;
    var date := DaysToYmd(secs / 86_400);
    s := DateText(date) + ['T'] + TimeText(timeOfDay) + "Z";
  }

  // ---------------------------------------------------------------------------
  // Round trip
  // ---------------------------------------------------------------------------

  lemma DateFields(d: Date, t: string)
    requires d.Valid() && d.year <= 9999 && DateText(d) <= t
    ensures |DateText(d)| == 10
    ensures ParseNumber(t[0..4]) == Some(d.year) && ParseNumber(t[5..7]) == Some(d.month)
    ensures ParseNumber(t[8..10]) == Some(d.day)
  {
    PaddedLength(d.year, 4);
    assert Pow10(4) == 10_000 by { assert Pow10(2) == 100 by { assert Pow10(1) == 10; } }
    TwoDigits(d.month);
    TwoDigits(d.day);
    assert t[0..4] == Padded(d.year, 4);
    assert t[5..7] == Padded(d.month, 2);
    assert t[8..10] == Padded(d.day, 2);
    ParsePadded(d.year, 4);
    ParsePadded(d.month, 2);
    ParsePadded(d.day, 2);
  }

  lemma TimeFields(secs: nat, u: string)
    requires secs < 86_400 && TimeText(secs) <= u
    ensures |u| >= 8 && ParseNumber(u[0..2]) == Some(secs / 3_600)
    ensures ParseNumber(u[3..5]) == Some(secs % 3_600 / 60) && ParseNumber(u[6..8]) == Some(secs % 60)
  {
    var h, m, s := secs / 3_600, secs % 3_600 / 60, secs % 60;
    TwoDigits(h);
    TwoDigits(m);
    TwoDigits(s);
    assert u[0..2] == Padded(h, 2);
    assert u[3..5] == Padded(m, 2);
    assert u[6..8] == Padded(s, 2);
    ParsePadded(h, 2);
    ParsePadded(m, 2);
    ParsePadded(s, 2);
  }

  lemma TimeLength(secs: nat)
    requires secs < 86_400
    ensures |TimeText(secs)| == 8
  {
    TwoDigits(secs / 3_600);
    TwoDigits(secs % 3_600 / 60);
    TwoDigits(secs % 60);
  }

  /** The first second of year 10000. */
  const END: nat := 253_402_300_800

  lemma Year10000()
    ensures YearStart(10_000) == 2_932_897 && END == 2_932_897 * 86_400
  {
  }

  lemma YearOfDay(days: nat)
    ensures DateAfter(days).year <= 9999 <==> days < 2_932_897
  {
    var d := DateAfter(days);
    DayNumberOfCount(days);
    InsideYear(d);
    Year10000();
    if d.year <= 9999 {
      YearsIncrease(d.year + 1, 10_000);
    } else {
      YearsIncrease(10_000, d.year);
    }
  }

  lemma YearBelow(secs: nat)
    ensures DateAfter(secs / 86_400).year <= 9999 <==> secs < END
  {
    YearOfDay(secs / 86_400);
  }

  /** Date and time of day of a second. */
  function FieldsOf(secs: nat): Fields {
    var d, u := DateAfter(secs / 86_400), secs % 86_400;
    Fields(d.year, d.month, d.day, u / 3_600, u % 3_600 / 60, u % 60)
  }

  lemma TimeOfDay(u: nat)
    requires u < 86_400
    ensures u / 3_600 <= 23 && u % 3_600 / 60 <= 59 && u % 60 <= 59
    ensures u / 3_600 * 3_600 + u % 3_600 / 60 * 60 + u % 60 == u
  {
    var h, rest := u / 3_600, u % 3_600;
    var m, s := rest / 60, rest % 60;
    assert u == 60 * (60 * h + m) + s;
    QuotientIs(u, 60, 60 * h + m, s);
  }

  lemma SecondsAddUp(secs: nat)
    ensures FieldsOf(secs).InRange() && FieldsOf(secs).Seconds() == secs
  {
    var days, u := secs / 86_400, secs % 86_400;
    assert secs == days * 86_400 + u;
    DayNumberOfCount(days);
    TimeOfDay(u);
  }

  lemma Slices(t: string)
    requires |t| >= 19
    ensures t[11..][0..2] == t[11..13] && t[11..][3..5] == t[14..16] && t[11..][6..8] == t[17..19]
  {
  }

  lemma StampParts(secs: nat, sep: char, t: string)
    requires secs < END && Stamp(secs, sep) <= t
    ensures |t| >= 19 && DateText(DateAfter(secs / 86_400)) <= t && t[10] == sep && TimeText(secs % 86_400) <= t[11..]
  {
    var d, u := DateAfter(secs / 86_400), secs % 86_400;
    YearBelow(secs);
    DateFields(d, DateText(d));
    TimeLength(u);
    assert Stamp(secs, sep)[10] == sep && Stamp(secs, sep)[11..] == TimeText(u);
  }

  lemma StampRead(secs: nat, sep: char, t: string)
    requires secs < END && (sep == 'T' || sep == ' ') && Stamp(secs, sep) <= t
    ensures |t| >= 19 && ReadFields(t) == Some(FieldsOf(secs))
  {
    var d, u := DateAfter(secs / 86_400), secs % 86_400;
    YearBelow(secs);
    StampParts(secs, sep, t);
    DateFields(d, t);
    TimeFields(u, t[11..]);
    Slices(t);
  }

  /**
   * Whatever white space precedes a stamp and whatever follows it (a zone, a fraction of a second), the parser
   * reads the stamped second, through the end of year 9999.
   */
  lemma StampParses(secs: nat, sep: char, lead: string, tail: string, s: string)
    requires secs < END && (sep == 'T' || sep == ' ')
    requires (forall i :: 0 <= i < |lead| ==> IsSpace(lead[i])) && s == lead + Stamp(secs, sep) + tail
    ensures Read(s) == Epoch(secs)
  {
    var stamp := Stamp(secs, sep);
    StampTrimmed(secs, sep, lead, tail);
    StampRead(secs, sep, stamp);
    StampRead(secs, sep, Trim(s));
    StampIsAscii(secs, sep);
    assert IsAscii(Trim(s)[..19]);
    ReadAscii(s);
    SecondsAddUp(secs);
  }

  lemma StampTrimmed(secs: nat, sep: char, lead: string, tail: string)
    requires sep as int < 128 && forall i :: 0 <= i < |lead| ==> IsSpace(lead[i])
    ensures Stamp(secs, sep) <= Trim(lead + Stamp(secs, sep) + tail)
  {
    var stamp := Stamp(secs, sep);
    StampIsAscii(secs, sep);
    DigitIsNoSpace(stamp[0]);
    DigitIsNoSpace(stamp[|stamp| - 1]);
    assert lead + stamp + tail == lead + (stamp + tail);
    TrimLeftSkips(lead, stamp + tail);
    TrimRightKeeps(stamp, tail);
  }

  lemma DateIsAscii(d: Date)
    ensures IsAscii(DateText(d)) && IsDigit(DateText(d)[0])
  {
  }

  lemma TimeIsAscii(secs: nat)
    ensures IsAscii(TimeText(secs)) && IsDigit(TimeText(secs)[|TimeText(secs)| - 1])
  {
  }

  lemma StampIsAscii(secs: nat, sep: char)
    requires sep as int < 128
    ensures IsAscii(Stamp(secs, sep)) && |Stamp(secs, sep)| > 0
    ensures IsDigit(Stamp(secs, sep)[0]) && IsDigit(Stamp(secs, sep)[|Stamp(secs, sep)| - 1])
  {
    DateIsAscii(DateAfter(secs / 86_400));
    TimeIsAscii(secs % 86_400);
  }

  /** With a year of `k` digits, dashes stand at `k` and `k` + 3. */
  lemma ShapeRejected(t: string, k: nat)
    requires k >= 5 && |t| >= 19 && |t| > k + 3 && t[k] == '-' && t[k + 3] == '-'
    requires forall i :: 0 <= i < k ==> IsDigit(t[i])
    ensures ReadFields(t).None?
  {
    if k == 5 || k == 6 {
      assert t[5..7][k - 5] == '-';
      ParseWithBadChar(t[5..7], k - 5);
    } else if k == 8 || k == 9 {
      assert t[8..10][k - 8] == '-';
      ParseWithBadChar(t[8..10], k - 8);
    } else {
      assert t[10] == '-' || IsDigit(t[10]);
    }
  }

  lemma LongStamp(secs: nat, t: string)
    requires secs >= END && t == Stamp(secs, 'T') + "Z"
    ensures var k := |Decimal(DateAfter(secs / 86_400).year)|;
            && k >= 5 && |t| > k + 3 && t[k] == '-' && t[k + 3] == '-'
            && forall i :: 0 <= i < k ==> IsDigit(t[i])
  {
    var d := DateAfter(secs / 86_400);
    YearBelow(secs);
    PaddedLength(d.year, 4);
    assert Pow10(4) == 10_000 by { assert Pow10(2) == 100 by { assert Pow10(1) == 10; } }
    TwoDigits(d.month);
    var y := Decimal(d.year);
    assert DateText(d) <= t;
    assert DateText(d)[|y|] == '-' && DateText(d)[|y| + 3] == '-';
    assert y <= DateText(d);
  }

  /** From year 10000 on the printed stamp has moved out of the parser's fixed positions. */
  lemma LongYearRejected(secs: nat, t: string)
    requires secs >= END && t == Stamp(secs, 'T') + "Z" && |t| >= 19
    ensures ReadFields(t).None?
  {
    LongStamp(secs, t);
    ShapeRejected(t, |Decimal(DateAfter(secs / 86_400).year)|);
  }

  lemma LateStampTrimmed(secs: nat, t: string)
    requires t == Stamp(secs, 'T') + "Z"
    ensures Trim(t) == t && IsAscii(t)
  {
    StampIsAscii(secs, 'T');
    DigitIsNoSpace(t[0]);
    var stamp := Stamp(secs, 'T');
    DigitIsNoSpace(stamp[|stamp| - 1]);
    TrimLeftSkips("", t);
    assert "" + t == t;
    TrimRightKeeps(stamp, "Z");
  }

  lemma LateStampRejected(secs: nat, t: string)
    requires secs >= END && t == Stamp(secs, 'T') + "Z"
    ensures Read(t) == Unreadable
  {
    LateStampTrimmed(secs, t);
    if |t| >= 19 {
      LongYearRejected(secs, t);
      ReadAscii(t);
    } else {
      LengthInBytes(t);
    }
  }

  lemma EmptyLead(a: string, b: string)
    ensures "" + a + b == a + b
  {
  }

  lemma TailIgnored(epoch: nat, tail: string, ts: string)
    requires epoch < END && ts == Stamp(epoch, 'T') + tail
    ensures Read(ts) == Epoch(epoch)
  {
    EmptyLead(Stamp(epoch, 'T'), tail);
    StampParses(epoch, 'T', "", tail, ts);
  }

  /** Parsing what was printed gives back the second exactly through year 9999, and nothing afterwards. */
  lemma RoundTrip(secs: nat)
    ensures Read(Stamp(secs, 'T') + "Z") == if secs < END then Epoch(secs) else Unreadable
  {
    if secs < END {
      TailIgnored(secs, "Z", Stamp(secs, 'T') + "Z");
    } else {
      LateStampRejected(secs, Stamp(secs, 'T') + "Z");
    }
  }

  // ---------------------------------------------------------------------------
  // The age filter
  // ---------------------------------------------------------------------------

  predicate OldEnough(epoch: int, nowMs: nat, ageMs: nat) {
    epoch >= 0 && Elapsed(nowMs, epoch * 1000) >= ageMs
  }

  /** An object without a readable time counts as new; None where the parser panics. */
  function ObjectIsOlderThan(lastModified: Option<string>, nowMs: nat, ageMs: nat): Option<bool> {
    match lastModified
    case None => Some(false)
    case Some(ts) =>
      match Read(ts)
      case Panics => None
      case Unreadable => Some(false)
      case Epoch(n) => Some(OldEnough(n, nowMs, ageMs))
  }

  lemma SameAge(putAt: nat, nowMs: nat, ageMs: nat)
    ensures OldEnough(putAt / 1000, nowMs, ageMs) <==> Lists(S3, nowMs, putAt, ageMs)
  {
  }

  lemma OlderByEpoch(ts: string, epoch: nat, nowMs: nat, ageMs: nat)
    requires Read(ts) == Epoch(epoch)
    ensures ObjectIsOlderThan(Some(ts), nowMs, ageMs) == Some(OldEnough(epoch, nowMs, ageMs))
  {
  }

  /** For a blob stamped with the whole second of its upload, the filter is the S3 rule of `BlobAge`. */
  lemma FilterIsAgeRule(putAt: nat, nowMs: nat, ageMs: nat, tail: string)
    requires putAt / 1000 < END
    ensures ObjectIsOlderThan(Some(Stamp(putAt / 1000, 'T') + tail), nowMs, ageMs)
      == Some(Lists(S3, nowMs, putAt, ageMs))
  {
    var ts := Stamp(putAt / 1000, 'T') + tail;
    TailIgnored(putAt / 1000, tail, ts);
    OlderByEpoch(ts, putAt / 1000, nowMs, ageMs);
    SameAge(putAt, nowMs, ageMs);
  }
}
