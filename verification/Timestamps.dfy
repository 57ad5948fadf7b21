/** The forge's timestamps, RFC 3339 section 5.6, as epoch milliseconds
    (hunter-rs/src/scheduler.rs). */
module Timestamps {
  import opened Domain
  import opened Dates
  import opened Strings

  // ------------------------------------------------------------------
  // The numbers the parser reads
  // ------------------------------------------------------------------

  function DigitsValue(s: string): Option<nat> {
    if s == "" then Some(0)
    else
      var init := DigitsValue(s[..|s| - 1]);
      var c := s[|s| - 1];
      if init.None? || !IsDigit(c) then None else Some(10 * init.value + (c as int - '0' as int))
  }

  const I64_MAX: int := 9_223_372_036_854_775_807
  const U32_MAX: int := 4_294_967_295

  /** `parse::<i64>`: an optional sign, then digits, in range. */
  function ParseI64(s: string): Option<int> {
    var signed := s != "" && (s[0] == '+' || s[0] == '-');
    var digits := if signed then s[1..] else s;
    var n := DigitsValue(digits);
    if digits == "" || n.None? then None
    else
      var v: int := if signed && s[0] == '-' then 0 - n.value else n.value;
      if -I64_MAX - 1 <= v <= I64_MAX then Some(v) else None
  }

  /** `parse::<u32>`. */
  function ParseU32(s: string): Option<int> {
    var signed := s != "" && s[0] == '+';
    var digits := if signed then s[1..] else s;
    var n := DigitsValue(digits);
    if digits == "" || n.None? || n.value > U32_MAX then None else Some(n.value)
  }

  function OrZero(x: Option<int>): int {
    if x.Some? then x.value else 0
  }

  // ------------------------------------------------------------------
  // iso_ms
  // ------------------------------------------------------------------

  /** `parse_tz_offset`. */
  function ZoneSeconds(tz: string): int {
    var parts := Split(tz, ':');
    OrZero(ParseI64(parts[0])) * 3600 + (if |parts| > 1 then OrZero(ParseI64(parts[1])) * 60 else 0)
  }

  /** The part before the zone, and the zone's offset in seconds. */
  function CutZone(ts: string): (string, int) {
    var z := LastIndex(ts, 'Z');
    var plus := LastIndex(ts, '+');
    var minus := LastIndex(ts, '-');
    if z.Some? then (ts[..z.value], 0)
    else if plus.Some? && plus.value > 10 then (ts[..plus.value], ZoneSeconds(ts[plus.value + 1..]))
    else if minus.Some? && minus.value > 10 then (ts[..minus.value], -ZoneSeconds(ts[minus.value + 1..]))
    else (ts, 0)
  }

  function Pow10(n: nat): nat {
    if n == 0 then 1 else 10 * Pow10(n - 1)
  }

  /** The first three digits of a fraction, as milliseconds. */
  function FractionMs(frac: string): int {
    var digits := if |frac| < 3 then |frac| else 3;
    OrZero(ParseI64(frac[..digits])) * Pow10(3 - digits)
  }

  function IsoMs(ts: string): int {
    if ts == "" then 0
    else
      var (dateTime, offset) := CutZone(ts);
      var parts := SplitOnce(dateTime, 'T');
      if |parts| != 2 then 0 else DateTimeMs(Split(parts[0], '-'), SplitOnce(parts[1], '.'), offset)
  }

  function DateTimeMs(date: seq<string>, time: seq<string>, offset: int): int
    requires |time| > 0
  {
    var hms := Split(time[0], ':');
    if |date| != 3 || |hms| != 3 then 0
    else
      var y, mo, d := ParseI64(date[0]), ParseU32(date[1]), ParseU32(date[2]);
      var h, mi, s := ParseI64(hms[0]), ParseI64(hms[1]), ParseI64(hms[2]);
      if y.None? || mo.None? || d.None? || h.None? || mi.None? || s.None? then 0
      else
        var ms := if |time| == 2 then FractionMs(time[1]) else 0;
        var days := CivilToDays(Date(y.value, mo.value, d.value));
        (days * 86_400 + h.value * 3600 + mi.value * 60 + s.value - offset) * 1000 + ms
  }

  // ------------------------------------------------------------------
  // Printing, RFC 3339 section 5.6
  // ------------------------------------------------------------------

  function DigitChar(n: nat): char
    requires n < 10
  {
    '0' + n as char
  }

  /** `n` in `width` digits. */
  function Pad(n: nat, width: nat): (s: string)
    ensures |s| == width
    ensures forall i | 0 <= i < width :: IsDigit(s[i])
  {
    if width == 0 then "" else Pad(n / 10, width - 1) + [DigitChar(n % 10)]
  }

  datatype Zone = Utc | East(hours: nat, minutes: nat) | West(hours: nat, minutes: nat)

  predicate IsZone(z: Zone) {
    z.Utc? || (z.hours < 24 && z.minutes < 60)
  }

  function ZoneOffset(z: Zone): int {
    match z
    case Utc => 0
    case East(h, m) => h * 3600 + m * 60
    case West(h, m) => -(h * 3600 + m * 60)
  }

  function PrintZone(z: Zone, utcMark: char): string {
    match z
    case Utc => [utcMark]
    case East(h, m) => "+" + Pad(h, 2) + ":" + Pad(m, 2)
    case West(h, m) => "-" + Pad(h, 2) + ":" + Pad(m, 2)
  }

  datatype Clock = Clock(hour: nat, minute: nat, second: nat)

  predicate Printable(d: Date, t: Clock) {
    IsDate(d) && 0 <= d.year <= 9999 && t.hour < 24 && t.minute < 60 && t.second <= 60
  }

  function PrintDate(d: Date): string
    requires IsDate(d) && 0 <= d.year <= 9999
  {
    Pad(d.year, 4) + "-" + Pad(d.month, 2) + "-" + Pad(d.day, 2)
  }

  function PrintClock(t: Clock): string {
    Pad(t.hour, 2) + ":" + Pad(t.minute, 2) + ":" + Pad(t.second, 2)
  }

  predicate AllDigits(s: string) {
    forall i | 0 <= i < |s| :: IsDigit(s[i])
  }

  function PrintFraction(frac: string): string {
    if frac == "" then "" else "." + frac
  }

  /** The section allows each mark in either case. */
  predicate IsMarks(timeMark: char, utcMark: char) {
    (timeMark == 'T' || timeMark == 't') && (utcMark == 'Z' || utcMark == 'z')
  }

  function Spell(d: Date, t: Clock, frac: string, z: Zone, timeMark: char, utcMark: char): string
    requires Printable(d, t)
  {
    PrintDate(d) + [timeMark] + PrintClock(t) + PrintFraction(frac) + PrintZone(z, utcMark)
  }

  function Print(d: Date, t: Clock, frac: string, z: Zone): string
    requires Printable(d, t)
  {
    Spell(d, t, frac, z, 'T', 'Z')
  }

  /** The milliseconds a fraction of a second stands for. */
  function Millis(frac: string): int {
    var n := DigitsValue((frac + "000")[..3]);
    if n.Some? then n.value else 0
  }

  /** The moment a spelling stands for, to the millisecond. */
  function Moment(d: Date, t: Clock, frac: string, z: Zone): int {
    (CivilToDays(d) * 86_400 + t.hour * 3600 + t.minute * 60 + t.second - ZoneOffset(z)) * 1000 + Millis(frac)
  }

  // ------------------------------------------------------------------
  // Splitting what was joined
  // ------------------------------------------------------------------

  lemma Regroup(a: string, b: string, d: string, c: char)
    ensures a + [c] + b + [c] + d == a + [c] + (b + [c] + d)
  {}

  lemma SplitTwo(b: string, d: string, c: char)
    requires c !in b && c !in d
    ensures Split(b + [c] + d, c) == [b, d]
  {
    SplitAt(b, c, d);
    SplitNone(d, c);
  }

  lemma SplitThree(a: string, b: string, d: string, c: char)
    requires c !in a && c !in b && c !in d
    ensures Split(a + [c] + b + [c] + d, c) == [a, b, d]
  {
    Regroup(a, b, d, c);
    var rest := b + [c] + d;
    SplitTwo(b, d, c);
    SplitAt(a, c, rest);
    assert [a] + [b, d] == [a, b, d];
  }

  // ------------------------------------------------------------------
  // Reading what was printed
  // ------------------------------------------------------------------

  lemma {:induction false} PadReads(n: nat, width: nat)
    requires n < Pow10(width)
    ensures DigitsValue(Pad(n, width)) == Some(n)
  {
    if width > 0 {
      PadReads(n / 10, width - 1);
      var s := Pad(n, width);
      assert s[..|s| - 1] == Pad(n / 10, width - 1);
    }
  }

  lemma PadParses(n: nat, width: nat)
    requires width > 0 && n < Pow10(width) && n <= U32_MAX
    ensures ParseI64(Pad(n, width)) == Some(n) && ParseU32(Pad(n, width)) == Some(n)
  {
    PadReads(n, width);
    assert IsDigit(Pad(n, width)[0]);
  }

  lemma Pow10Small()
    ensures Pow10(1) == 10 && Pow10(2) == 100 && Pow10(3) == 1000 && Pow10(4) == 10_000
  {
    assert Pow10(0) == 1;
  }

  predicate IsZoneMark(c: char) {
    c == 'Z' || c == '+' || c == '-'
  }

  lemma TailHasNoMarks(t: Clock, frac: string)
    requires AllDigits(frac)
    ensures forall c | c in PrintClock(t) + PrintFraction(frac) :: !IsZoneMark(c) && c != 'T'
    ensures '.' !in PrintClock(t)
  {}

  lemma CutUtc(head: string)
    ensures CutZone(head + "Z") == (head, 0)
  {
    LastIndexAt(head, 'Z', "");
    assert head + ['Z'] + "" == head + "Z";
  }

  lemma SliceAt(head: string, c: char, tail: string)
    ensures (head + [c] + tail)[..|head|] == head && (head + [c] + tail)[|head| + 1..] == tail
  {}

  lemma JoinedLacks(head: string, c: char, tail: string, x: char)
    requires x !in head && x != c && x !in tail
    ensures LastIndex(head + [c] + tail, x).None?
  {
    LastIndexNone(head + [c] + tail, x);
  }

  lemma CutEast(head: string, tail: string)
    requires |head| > 10 && 'Z' !in head && 'Z' !in tail && '+' !in tail
    ensures CutZone(head + ['+'] + tail) == (head, ZoneSeconds(tail))
  {
    JoinedLacks(head, '+', tail, 'Z');
    LastIndexAt(head, '+', tail);
    SliceAt(head, '+', tail);
  }

  lemma CutWest(head: string, tail: string)
    requires |head| > 10 && 'Z' !in head && 'Z' !in tail && '+' !in head && '+' !in tail && '-' !in tail
    ensures CutZone(head + ['-'] + tail) == (head, -ZoneSeconds(tail))
  {
    JoinedLacks(head, '-', tail, 'Z');
    JoinedLacks(head, '-', tail, '+');
    LastIndexAt(head, '-', tail);
    SliceAt(head, '-', tail);
  }

  /** A last dash within the date is no zone. */
  lemma CutNone(head: string, tail: string)
    requires |head| <= 10 && 'Z' !in head && 'Z' !in tail && '+' !in head && '+' !in tail && '-' !in tail
    ensures CutZone(head + ['-'] + tail) == (head + ['-'] + tail, 0)
  {
    JoinedLacks(head, '-', tail, 'Z');
    JoinedLacks(head, '-', tail, '+');
    LastIndexAt(head, '-', tail);
  }

  function Head(d: Date, t: Clock, frac: string): string
    requires Printable(d, t)
  {
    PrintDate(d) + "T" + PrintClock(t) + PrintFraction(frac)
  }

  lemma HeadHasNoMarks(d: Date, t: Clock, frac: string)
    requires Printable(d, t) && AllDigits(frac)
    ensures |Head(d, t, frac)| > 10 && 'Z' !in Head(d, t, frac) && '+' !in Head(d, t, frac)
  {
    TailHasNoMarks(t, frac);
    assert Head(d, t, frac) == PrintDate(d) + "T" + (PrintClock(t) + PrintFraction(frac));
    assert 'Z' !in PrintDate(d) && '+' !in PrintDate(d);
  }

  lemma ZoneTailHasNoMarks(h: nat, m: nat)
    ensures forall c | c in Pad(h, 2) + ":" + Pad(m, 2) :: !IsZoneMark(c)
  {}

  function ZoneTail(z: Zone): string
    requires !z.Utc?
  {
    Pad(z.hours, 2) + ":" + Pad(z.minutes, 2)
  }

  lemma PrintParts(d: Date, t: Clock, frac: string, z: Zone)
    requires Printable(d, t)
    ensures z.Utc? ==> Print(d, t, frac, z) == Head(d, t, frac) + "Z"
    ensures !z.Utc? ==> Print(d, t, frac, z) == Head(d, t, frac) + [if z.East? then '+' else '-'] + ZoneTail(z)
  {}

  /** The zone comes off as it was put on. */
  lemma CutZonePrinted(d: Date, t: Clock, frac: string, z: Zone)
    requires Printable(d, t) && AllDigits(frac) && IsZone(z)
    ensures CutZone(Print(d, t, frac, z)) == (Head(d, t, frac), ZoneOffset(z))
  {
    HeadHasNoMarks(d, t, frac);
    PrintParts(d, t, frac, z);
    var head := Head(d, t, frac);
    if z.Utc? {
      CutUtc(head);
    } else {
      ZoneTailHasNoMarks(z.hours, z.minutes);
      ZonePrinted(z.hours, z.minutes);
      CutTail(head, ZoneTail(z), z);
    }
  }

  lemma CutTail(head: string, tail: string, z: Zone)
    requires !z.Utc? && |head| > 10 && 'Z' !in head && '+' !in head
    requires 'Z' !in tail && '+' !in tail && '-' !in tail && ZoneSeconds(tail) == z.hours * 3600 + z.minutes * 60
    ensures CutZone(head + [if z.East? then '+' else '-'] + tail) == (head, ZoneOffset(z))
  {
    if z.East? { CutEast(head, tail); } else { CutWest(head, tail); }
  }

  lemma ZonePrinted(h: nat, m: nat)
    requires h < 24 && m < 60
    ensures ZoneSeconds(Pad(h, 2) + ":" + Pad(m, 2)) == h * 3600 + m * 60
  {
    SplitAt(Pad(h, 2), ':', Pad(m, 2));
    SplitNone(Pad(m, 2), ':');
    Pow10Small();
    PadParses(h, 2);
    PadParses(m, 2);
  }

  lemma DateAndClockRead(d: Date, t: Clock)
    requires Printable(d, t)
    ensures Split(PrintDate(d), '-') == [Pad(d.year, 4), Pad(d.month, 2), Pad(d.day, 2)]
    ensures Split(PrintClock(t), ':') == [Pad(t.hour, 2), Pad(t.minute, 2), Pad(t.second, 2)]
  {
    SplitThree(Pad(d.year, 4), Pad(d.month, 2), Pad(d.day, 2), '-');
    SplitThree(Pad(t.hour, 2), Pad(t.minute, 2), Pad(t.second, 2), ':');
  }

  lemma ThreeDigits(x: string)
    requires |x| == 3 && AllDigits(x)
    ensures var n := DigitsValue(x); n.Some? && 0 <= n.value < 1000
    ensures DigitsValue(x[..2]).Some?
    ensures DigitsValue(x).value == 10 * DigitsValue(x[..2]).value + (x[2] as int - '0' as int)
    ensures DigitsValue(x[..1]).Some?
    ensures DigitsValue(x[..2]).value == 10 * DigitsValue(x[..1]).value + (x[1] as int - '0' as int)
    ensures DigitsValue(x[..1]).value == x[0] as int - '0' as int
  {
    var y := x[..2];
    var w := x[..1];
    assert y[..1] == w && x[..2] == y && w[..0] == "";
    assert DigitsValue("") == Some(0);
  }

  /** The parser's scaling is the fraction's meaning. */
  lemma FractionRead(frac: string)
    requires AllDigits(frac)
    ensures FractionMs(frac) == Millis(frac)
    ensures Millis(frac) == 0 <==> forall i | 0 <= i < |frac| && i < 3 :: frac[i] == '0'
  {
    var x := (frac + "000")[..3];
    ThreeDigits(x);
    Pow10Small();
    assert Pow10(0) == 1;
    var n := if |frac| < 3 then |frac| else 3;
    assert frac[..n] == x[..n];
    assert forall i | n <= i < 3 :: x[i] == '0';
    assert n == 3 ==> x[..n] == x;
    if n == 0 { assert frac == "" && frac[..0] == ""; }
    assert forall i | 0 <= i < n :: x[i] == frac[i];
  }

  /** The parser, from the zone inwards. */
  lemma ReadInward(ts: string, dateTime: string, date: string, rest: string, time: seq<string>, offset: int)
    requires ts != "" && CutZone(ts) == (dateTime, offset) && SplitOnce(dateTime, 'T') == [date, rest]
    requires SplitOnce(rest, '.') == time
    ensures IsoMs(ts) == DateTimeMs(Split(date, '-'), time, offset)
  {}

  /** The time, with whatever `rest` the zone left behind it. */
  function Tail(t: Clock, frac: string, rest: string): string {
    PrintClock(t) + PrintFraction(frac) + rest
  }

  lemma HeadParts(d: Date, t: Clock, frac: string, rest: string)
    requires Printable(d, t)
    ensures Head(d, t, frac) + rest == PrintDate(d) + ['T'] + Tail(t, frac, rest)
  {}

  lemma DateSplits(d: Date, t: Clock, frac: string, rest: string)
    requires Printable(d, t)
    ensures SplitOnce(Head(d, t, frac) + rest, 'T') == [PrintDate(d), Tail(t, frac, rest)]
  {
    HeadParts(d, t, frac, rest);
    assert 'T' !in PrintDate(d);
    SplitAt(PrintDate(d), 'T', Tail(t, frac, rest));
  }

  /** The pieces around the point. */
  function TimePieces(t: Clock, frac: string, rest: string): seq<string> {
    if frac == "" then [PrintClock(t) + rest] else [PrintClock(t), frac + rest]
  }

  lemma TimeSplits(t: Clock, frac: string, rest: string)
    requires AllDigits(frac) && '.' !in rest
    ensures SplitOnce(Tail(t, frac, rest), '.') == TimePieces(t, frac, rest)
  {
    TailHasNoMarks(t, frac);
    if frac == "" {
      assert Tail(t, frac, rest) == PrintClock(t) + rest;
      SplitNone(PrintClock(t) + rest, '.');
    } else {
      assert Tail(t, frac, rest) == PrintClock(t) + ['.'] + (frac + rest);
      SplitAt(PrintClock(t), '.', frac + rest);
    }
  }

  /** Given how the zone comes off, the rest reads field by field. */
  lemma HeadReads(ts: string, d: Date, t: Clock, frac: string, rest: string, offset: int)
    requires Printable(d, t) && AllDigits(frac) && '.' !in rest && ts != ""
    requires CutZone(ts) == (Head(d, t, frac) + rest, offset)
    ensures IsoMs(ts) == DateTimeMs(Split(PrintDate(d), '-'), TimePieces(t, frac, rest), offset)
  {
    DateSplits(d, t, frac, rest);
    TimeSplits(t, frac, rest);
    ReadInward(ts, Head(d, t, frac) + rest, PrintDate(d), Tail(t, frac, rest), TimePieces(t, frac, rest), offset);
  }

  /** What the parser makes of every timestamp with upper-case marks. */
  lemma PrintedReads(d: Date, t: Clock, frac: string, z: Zone)
    requires Printable(d, t) && AllDigits(frac) && IsZone(z)
    ensures IsoMs(Print(d, t, frac, z)) == Moment(d, t, frac, z)
  {
    CutZonePrinted(d, t, frac, z);
    FractionRead(frac);
    assert Head(d, t, frac) + "" == Head(d, t, frac);
    HeadReads(Print(d, t, frac, z), d, t, frac, "", ZoneOffset(z));
    WholePieces(t, frac);
    FieldsRead(d, t, TimePieces(t, frac, ""), ZoneOffset(z));
  }

  lemma WholePieces(t: Clock, frac: string)
    ensures TimePieces(t, frac, "") == if frac == "" then [PrintClock(t)] else [PrintClock(t), frac]
    ensures FractionMs("") == 0
  {
    assert PrintClock(t) + "" == PrintClock(t) && frac + "" == frac;
  }

  lemma FieldsRead(d: Date, t: Clock, time: seq<string>, offset: int)
    requires Printable(d, t) && 1 <= |time| <= 2 && time[0] == PrintClock(t)
    ensures DateTimeMs(Split(PrintDate(d), '-'), time, offset)
      == (CivilToDays(d) * 86_400 + t.hour * 3600 + t.minute * 60 + t.second - offset) * 1000
         + if |time| == 2 then FractionMs(time[1]) else 0
  {
    DateAndClockRead(d, t);
    Pow10Small();
    PadParses(d.year, 4);
    PadParses(d.month, 2);
    PadParses(d.day, 2);
    PadParses(t.hour, 2);
    PadParses(t.minute, 2);
    PadParses(t.second, 2);
  }

  // ------------------------------------------------------------------
  // Instants
  // ------------------------------------------------------------------

  function LocalSeconds(ms: int, z: Zone): int {
    ms / 1000 + ZoneOffset(z)
  }

  function LocalDate(ms: int, z: Zone): Date {
    CivilFromDays(LocalSeconds(ms, z) / 86_400)
  }

  function LocalClock(ms: int, z: Zone): Clock {
    var s := LocalSeconds(ms, z) % 86_400;
    Clock(s / 3600, s % 3600 / 60, s % 60)
  }

  /** The moment `ms` as a clock in zone `z` shows it, to the millisecond. */
  function PrintInstant(ms: int, z: Zone): string
    requires Printable(LocalDate(ms, z), LocalClock(ms, z))
  {
    Print(LocalDate(ms, z), LocalClock(ms, z), Pad(ms % 1000, 3), z)
  }

  lemma MillisRead(n: nat)
    requires n < 1000
    ensures FractionMs(Pad(n, 3)) == n
  {
    Pow10Small();
    PadParses(n, 3);
    assert Pad(n, 3)[..3] == Pad(n, 3);
    assert Pow10(0) == 1;
  }

  lemma ClockAddsUp(s: int)
    requires 0 <= s < 86_400
    ensures s / 3600 * 3600 + s % 3600 / 60 * 60 + s % 60 == s
  {}

  /** `iso_ms` inverts the printing of every moment of the years 0 to 9999, in
      every zone: all the spellings of one moment read as the same value. */
  lemma InstantRoundTrip(ms: int, z: Zone)
    requires IsZone(z) && 0 <= LocalDate(ms, z).year <= 9999
    ensures Printable(LocalDate(ms, z), LocalClock(ms, z))
    ensures IsoMs(PrintInstant(ms, z)) == ms
  {
    var days := LocalSeconds(ms, z) / 86_400;
    DaysRoundTrip(days);
    ClockAddsUp(LocalSeconds(ms, z) % 86_400);
    var d, t := LocalDate(ms, z), LocalClock(ms, z);
    assert CivilToDays(d) == days;
    MillisRead(ms % 1000);
    PrintedReads(d, t, Pad(ms % 1000, 3), z);
    FractionRead(Pad(ms % 1000, 3));
  }

  // ------------------------------------------------------------------
  // The lower-case marks
  // ------------------------------------------------------------------

  /** Without an upper-case `T` nothing is read. */
  lemma NoUpperTReadsZero(ts: string)
    requires 'T' !in ts
    ensures IsoMs(ts) == 0
  {
    if ts != "" {
      var (dateTime, _) := CutZone(ts);
      assert forall i | 0 <= i < |dateTime| :: dateTime[i] == ts[i];
      SplitNone(dateTime, 'T');
    }
  }

  lemma LowerTReads(d: Date, t: Clock, frac: string, z: Zone, utcMark: char)
    requires Printable(d, t) && AllDigits(frac) && IsMarks('t', utcMark)
    ensures IsoMs(Spell(d, t, frac, z, 't', utcMark)) == 0
  {
    var ts := Spell(d, t, frac, z, 't', utcMark);
    TailHasNoMarks(t, frac);
    assert 'T' !in PrintDate(d);
    assert 'T' !in PrintZone(z, utcMark);
    assert ts == PrintDate(d) + ['t'] + (PrintClock(t) + PrintFraction(frac)) + PrintZone(z, utcMark);
    NoUpperTReadsZero(ts);
  }

  function YearMonth(d: Date): string
    requires IsDate(d) && 0 <= d.year <= 9999
  {
    Pad(d.year, 4) + "-" + Pad(d.month, 2)
  }

  lemma LowerZParts(d: Date, t: Clock, frac: string)
    requires Printable(d, t)
    ensures var ts := Spell(d, t, frac, Utc, 'T', 'z');
      && ts == Head(d, t, frac) + "z"
      && ts == YearMonth(d) + ['-'] + (Pad(d.day, 2) + "T" + Tail(t, frac, "z"))
  {}

  /** A lower-case `z` is no zone: it stays at the end of the time. */
  lemma LowerZStays(d: Date, t: Clock, frac: string)
    requires Printable(d, t) && AllDigits(frac)
    ensures var ts := Spell(d, t, frac, Utc, 'T', 'z');
      CutZone(ts) == (ts, 0) && ts == Head(d, t, frac) + "z"
  {
    LowerZParts(d, t, frac);
    TailHasNoMarks(t, frac);
    CutNone(YearMonth(d), Pad(d.day, 2) + "T" + Tail(t, frac, "z"));
  }

  lemma {:induction false} NotDigits(s: string, i: nat)
    requires i < |s| && !IsDigit(s[i])
    ensures DigitsValue(s).None?
  {
    if i < |s| - 1 { NotDigits(s[..|s| - 1], i); }
  }

  /** `z` after the seconds: they do not parse. */
  lemma LowerZAfterSeconds(d: Date, t: Clock)
    requires Printable(d, t)
    ensures DateTimeMs(Split(PrintDate(d), '-'), [PrintClock(t) + "z"], 0) == 0
  {
    var s := Pad(t.second, 2) + "z";
    var clock := Pad(t.hour, 2) + ":" + Pad(t.minute, 2) + ":" + s;
    assert PrintClock(t) + "z" == clock;
    SplitThree(Pad(t.hour, 2), Pad(t.minute, 2), s, ':');
    assert s[2] == 'z' && IsDigit(s[0]);
    NotDigits(s, 2);
  }

  /** `z` after the fraction: with three digits or more it is cut off, with
      fewer it spoils them. */
  lemma LowerZAfterFraction(frac: string)
    requires AllDigits(frac) && frac != ""
    ensures FractionMs(frac + "z") == if |frac| >= 3 then FractionMs(frac) else 0
  {
    var s := frac + "z";
    if |frac| >= 3 {
      assert s[..3] == frac[..3];
    } else {
      assert s[..|frac| + 1] == s && IsDigit(s[0]) && s[|frac|] == 'z';
      NotDigits(s, |frac|);
    }
  }

  /** What the parser makes of a lower-case `z`. */
  lemma LowerZReads(d: Date, t: Clock, frac: string)
    requires Printable(d, t) && AllDigits(frac)
    ensures IsoMs(Spell(d, t, frac, Utc, 'T', 'z')) ==
      if frac == "" then 0 else Moment(d, t, if |frac| >= 3 then frac else "", Utc)
  {
    var ts := Spell(d, t, frac, Utc, 'T', 'z');
    LowerZStays(d, t, frac);
    HeadReads(ts, d, t, frac, "z", 0);
    if frac == "" {
      LowerZAfterSeconds(d, t);
    } else {
      FieldsRead(d, t, TimePieces(t, frac, "z"), 0);
      LowerZAfterFraction(frac);
      FractionRead(frac);
      FractionRead("");
    }
  }

  predicate AllZeros(s: string) {
    forall i | 0 <= i < |s| :: s[i] == '0'
  }

  /** Exactly when `iso_ms` reads a spelling of section 5.6 as the moment it
      stands for: with a lower-case `t` only the moment 0, which it reads
      everything else as too; with a lower-case `z` when three digits of
      fraction shield it, or fewer that are zeros anyway, or when there is no
      fraction and the moment is 0; always otherwise. */
  lemma ReadsRight(d: Date, t: Clock, frac: string, z: Zone, timeMark: char, utcMark: char)
    requires Printable(d, t) && AllDigits(frac) && IsZone(z) && IsMarks(timeMark, utcMark)
    ensures IsoMs(Spell(d, t, frac, z, timeMark, utcMark)) == Moment(d, t, frac, z) <==>
      if timeMark == 't' then Moment(d, t, frac, z) == 0
      else if !z.Utc? || utcMark == 'Z' then true
      else if frac == "" then Moment(d, t, frac, z) == 0
      else |frac| >= 3 || AllZeros(frac)
  {
    if timeMark == 't' {
      LowerTReads(d, t, frac, z, utcMark);
    } else if z.Utc? && utcMark == 'z' {
      LowerZReads(d, t, frac);
      FractionRead(frac);
      FractionRead("");
    } else {
      PrintedReads(d, t, frac, z);
      assert Spell(d, t, frac, z, timeMark, utcMark) == Print(d, t, frac, z);
    }
  }

  const NOON_DATE := Date(2024, 1, 15)
  const NOON := Clock(12, 0, 0)

  lemma NoonMoment()
    ensures IsDate(NOON_DATE) && Moment(NOON_DATE, NOON, "", Utc) == 1_705_320_000_000
    ensures Moment(NOON_DATE, NOON, "5", Utc) == 1_705_320_000_500
  {
    DivBy400(2023, 5, 23);
    HalfSecond();
  }

  lemma HalfSecond()
    ensures Millis("5") == 500 && Millis("") == 0
  {
    assert ("5" + "000")[..3] == "500" && ("" + "000")[..3] == "000";
    ThreeDigits("500");
    ThreeDigits("000");
  }

  /** The failures are real: noon of 2024-01-15 with a `t` and with a `z`. */
  lemma LowerCaseReadsZero()
    ensures IsDate(NOON_DATE) && Moment(NOON_DATE, NOON, "", Utc) == 1_705_320_000_000
    ensures IsoMs(Spell(NOON_DATE, NOON, "", Utc, 't', 'Z')) == 0
    ensures IsoMs(Spell(NOON_DATE, NOON, "", Utc, 'T', 'z')) == 0
  {
    NoonMoment();
    LowerTReads(NOON_DATE, NOON, "", Utc, 'Z');
    LowerZReads(NOON_DATE, NOON, "");
  }

  /** And half a second later, with a `z` that takes the fraction along. */
  lemma LowerZLosesFraction()
    ensures IsDate(NOON_DATE) && Moment(NOON_DATE, NOON, "5", Utc) == 1_705_320_000_500
    ensures IsoMs(Spell(NOON_DATE, NOON, "5", Utc, 'T', 'z')) == 1_705_320_000_000
  {
    NoonMoment();
    LowerZReads(NOON_DATE, NOON, "5");
  }
}
