/**
  Instants as text columns. The database compares expiries and picks the oldest rows on these
  columns as text, which is the comparison of instants because every stamp has one width
  (section 5.1 of RFC 3339), and a stamp reads back as the instant it was written from.

  A datetime here is the UTC one that is written; a naive one is refused. Text is compared character
  by character, as the database does on these columns.
*/
module Stamps {
  import opened Options

  datatype Datetime = Utc(year: int, month: int, day: int, hour: int, minute: int, second: int, micro: int)
                    | Naive
  {
    /** The range of Python's `datetime`. */
    predicate Valid() {
      Utc? ==>
        && 1 <= year <= 9999 && 1 <= month <= 12 && 1 <= day <= DaysIn(year, month)
        && 0 <= hour < 24 && 0 <= minute < 60 && 0 <= second < 60 && 0 <= micro < 1_000_000
    }
  }

  // ---------------------------------------------------------------- the calendar

  predicate IsLeap(year: int) { year % 4 == 0 && (year % 100 != 0 || year % 400 == 0) }

  function DaysIn(year: int, month: int): int {
    if month == 2 then (if IsLeap(year) then 29 else 28)
    else if month == 4 || month == 6 || month == 9 || month == 11 then 30 else 31
  }

  function DaysBeforeYear(year: int): int { (year - 1) * 365 + (year - 1) / 4 - (year - 1) / 100 + (year - 1) / 400 }

  function DaysBeforeMonth(year: int, month: nat): int {
    if month <= 1 then 0 else DaysBeforeMonth(year, month - 1) + DaysIn(year, month - 1)
  }

  const DAY: int := 86_400_000_000

  function TimeOfDay(x: Datetime): int
    requires x.Utc?
  {
    ((x.hour * 60 + x.minute) * 60 + x.second) * 1_000_000 + x.micro
  }

  /** Day one is 1 January of year 1. */
  function Ordinal(x: Datetime): int
    requires x.Utc? && x.Valid()
  {
    DaysBeforeYear(x.year) + DaysBeforeMonth(x.year, x.month) + x.day
  }

  /** Microseconds on the proleptic Gregorian calendar. */
  function Instant(x: Datetime): int
    requires x.Utc? && x.Valid()
  {
    Ordinal(x) * DAY + TimeOfDay(x)
  }

  // ---------------------------------------------------------------- columns

  function Pow10(w: nat): nat { if w == 0 then 1 else 10 * Pow10(w - 1) }

  function Digit(d: int): char
    requires 0 <= d < 10
  {
    '0' + d as char
  }

  /** A number zero-padded to a width that holds it. */
  function Digits(n: nat, w: nat): (s: string)
    requires n < Pow10(w)
    ensures |s| == w
  {
    if w == 0 then "" else Digits(n / 10, w - 1) + [Digit(n % 10)]
  }

  /** One numeric field of a stamp and the text that follows it. */
  datatype Part = Part(n: nat, width: nat, after: string)

  predicate Fits(ps: seq<Part>) { forall i :: 0 <= i < |ps| ==> ps[i].n < Pow10(ps[i].width) }

  function Render(ps: seq<Part>): string
    requires Fits(ps)
  {
    if ps == [] then ""
    else
      assert forall i :: 1 <= i < |ps| ==> ps[1..][i - 1] == ps[i];
      Digits(ps[0].n, ps[0].width) + ps[0].after + Render(ps[1..])
  }

  function Parts(x: Datetime): seq<Part>
    requires x.Utc? && x.Valid()
  {
    [Part(x.year, 4, "-"), Part(x.month, 2, "-"), Part(x.day, 2, "T"),
     Part(x.hour, 2, ":"), Part(x.minute, 2, ":"), Part(x.second, 2, "."), Part(x.micro, 6, "+00:00")]
  }

  lemma PartsFit(x: Datetime)
    requires x.Utc? && x.Valid()
    ensures Fits(Parts(x))
  {
    assert Pow10(1) == 10 && Pow10(2) == 100 && Pow10(3) == 1000 && Pow10(4) == 10_000 && Pow10(6) == 1_000_000;
  }

  /** `YYYY-MM-DDTHH:MM:SS.ffffff+00:00`, or nothing for a datetime with no zone. */
  function ToColumn(x: Datetime): Option<string>
    requires x.Valid()
  {
    if x.Naive? then None else PartsFit(x); Some(Render(Parts(x)))
  }

  // ---------------------------------------------------------------- reading back

  function Read(s: string): Option<nat> {
    if s == "" then Some(0)
    else
      var init, last := Read(s[..|s| - 1]), s[|s| - 1];
      if init.None? || !('0' <= last <= '9') then None else Some(init.value * 10 + (last as int - '0' as int))
  }

  /** A field's width and the text that follows it. */
  datatype Slot = Slot(width: nat, after: string)

  const SHAPE: seq<Slot> := [Slot(4, "-"), Slot(2, "-"), Slot(2, "T"), Slot(2, ":"), Slot(2, ":"), Slot(2, "."),
                             Slot(6, "+00:00")]

  function Scan(text: string, shape: seq<Slot>): Option<seq<nat>> {
    if shape == [] then (if text == "" then Some([]) else None)
    else
      var w, k := shape[0].width, shape[0].width + |shape[0].after|;
      if |text| < k || text[w..k] != shape[0].after then None
      else
        var n, rest := Read(text[..w]), Scan(text[k..], shape[1..]);
        if n.None? || rest.None? then None else Some([n.value] + rest.value)
  }

  /** The inverse, on text of the one form that is ever written. */
  function FromColumn(text: string): Option<Datetime> {
    var f := Scan(text, SHAPE);
    if f.None? || |f.value| != 7 then None
    else
      var x := Utc(f.value[0], f.value[1], f.value[2], f.value[3], f.value[4], f.value[5], f.value[6]);
      if x.Valid() then Some(x) else None
  }

  // ---------------------------------------------------------------- digits

  lemma {:induction false} ReadDigits(n: nat, w: nat)
    requires n < Pow10(w)
    ensures Read(Digits(n, w)) == Some(n)
  {
    if w == 0 {
    } else {
      ReadDigits(n / 10, w - 1);
      var s := Digits(n, w);
      assert s[..w - 1] == Digits(n / 10, w - 1);
    }
  }

  lemma {:induction false} DigitsRead(s: string)
    requires Read(s).Some?
    ensures Read(s).value < Pow10(|s|) && Digits(Read(s).value, |s|) == s
    decreases |s|
  {
    if s == "" {
    } else {
      DigitsRead(s[..|s| - 1]);
      assert s == s[..|s| - 1] + [s[|s| - 1]];
    }
  }

  // ---------------------------------------------------------------- text order

  predicate TextLess(a: string, b: string) {
    b != "" && (a == "" || a[0] < b[0] || (a[0] == b[0] && TextLess(a[1..], b[1..])))
  }

  lemma {:induction false} SamePrefixes(a: string, b: string, c: string, d: string)
    requires |a| == |c|
    ensures TextLess(a + b, c + d) <==> TextLess(a, c) || (a == c && TextLess(b, d))
    decreases |a|
  {
    if a == "" {
      assert a + b == b && c + d == d;
    } else {
      assert (a + b)[1..] == a[1..] + b && (c + d)[1..] == c[1..] + d;
      SamePrefixes(a[1..], b, c[1..], d);
      assert a == [a[0]] + a[1..] && c == [c[0]] + c[1..];
    }
  }

  lemma {:induction false} NotLessItself(a: string)
    ensures !TextLess(a, a)
    decreases |a|
  {
    if a == "" {
    } else {
      NotLessItself(a[1..]);
    }
  }

  lemma {:induction false} TextTotal(a: string, b: string)
    ensures a == b || TextLess(a, b) || TextLess(b, a)
    ensures !(TextLess(a, b) && TextLess(b, a))
    decreases |a|
  {
    if a != "" && b != "" {
      TextTotal(a[1..], b[1..]);
      assert a == [a[0]] + a[1..] && b == [b[0]] + b[1..];
    }
  }

  lemma {:induction false} TextTransitive(a: string, b: string, c: string)
    requires TextLess(a, b) && TextLess(b, c)
    ensures TextLess(a, c)
    decreases |a|
  {
    if a != "" && a[0] == b[0] == c[0] {
      TextTransitive(a[1..], b[1..], c[1..]);
    }
  }

  lemma DigitOrder(a: int, b: int)
    requires 0 <= a < 10 && 0 <= b < 10
    ensures TextLess([Digit(a)], [Digit(b)]) <==> a < b
  {
  }

  /** Zero-padded numbers of one width are in the order of their texts. */
  lemma {:induction false} DigitsOrder(n: nat, m: nat, w: nat)
    requires n < Pow10(w) && m < Pow10(w)
    ensures TextLess(Digits(n, w), Digits(m, w)) <==> n < m
    ensures Digits(n, w) == Digits(m, w) <==> n == m
  {
    ReadDigits(n, w);
    ReadDigits(m, w);
    if w == 0 {
    } else {
      DigitsOrder(n / 10, m / 10, w - 1);
      SamePrefixes(Digits(n / 10, w - 1), [Digit(n % 10)], Digits(m / 10, w - 1), [Digit(m % 10)]);
      DigitOrder(n % 10, m % 10);
      assert n < m <==> n / 10 < m / 10 || (n / 10 == m / 10 && n % 10 < m % 10);
    }
  }

  // ---------------------------------------------------------------- stamps of one shape

  predicate SameShape(ps: seq<Part>, qs: seq<Part>) {
    |ps| == |qs| && forall i :: 0 <= i < |ps| ==> ps[i].width == qs[i].width && ps[i].after == qs[i].after
  }

  predicate Earlier(ps: seq<Part>, qs: seq<Part>)
    requires |ps| == |qs|
  {
    ps != [] && (ps[0].n < qs[0].n || (ps[0].n == qs[0].n && Earlier(ps[1..], qs[1..])))
  }

  lemma PartOrder(p: Part, q: Part, rest: string, rest': string)
    requires p.n < Pow10(p.width) && q.n < Pow10(q.width) && p.width == q.width && p.after == q.after
    ensures TextLess(Digits(p.n, p.width) + p.after + rest, Digits(q.n, q.width) + q.after + rest')
      <==> p.n < q.n || (p.n == q.n && TextLess(rest, rest'))
  {
    var a, b := Digits(p.n, p.width), Digits(q.n, q.width);
    DigitsOrder(p.n, q.n, p.width);
    NotLessItself(p.after);
    SamePrefixes(p.after, rest, q.after, rest');
    SamePrefixes(a, p.after + rest, b, q.after + rest');
    assert a + p.after + rest == a + (p.after + rest) && b + q.after + rest' == b + (q.after + rest');
  }

  lemma {:induction false} RenderOrder(ps: seq<Part>, qs: seq<Part>)
    requires SameShape(ps, qs) && Fits(ps) && Fits(qs)
    ensures TextLess(Render(ps), Render(qs)) <==> Earlier(ps, qs)
    decreases |ps|
  {
    if ps == [] {
    } else {
      var ps', qs' := ps[1..], qs[1..];
      assert forall i :: 0 <= i < |ps'| ==> ps'[i] == ps[i + 1] && qs'[i] == qs[i + 1];
      RenderOrder(ps', qs');
      PartOrder(ps[0], qs[0], Render(ps'), Render(qs'));
    }
  }

  function Shape(ps: seq<Part>): seq<Slot> {
    if ps == [] then [] else [Slot(ps[0].width, ps[0].after)] + Shape(ps[1..])
  }

  function Numbers(ps: seq<Part>): seq<nat> {
    if ps == [] then [] else [ps[0].n] + Numbers(ps[1..])
  }

  lemma {:induction false} ScanRendered(ps: seq<Part>)
    requires Fits(ps)
    ensures Scan(Render(ps), Shape(ps)) == Some(Numbers(ps))
    decreases |ps|
  {
    if ps == [] {
    } else {
      var p, ps' := ps[0], ps[1..];
      assert forall i :: 0 <= i < |ps'| ==> ps'[i] == ps[i + 1];
      ScanRendered(ps');
      ReadDigits(p.n, p.width);
      var text, w, k := Render(ps), p.width, p.width + |p.after|;
      assert text[..w] == Digits(p.n, w) && text[w..k] == p.after && text[k..] == Render(ps');
      assert Shape(ps)[1..] == Shape(ps');
    }
  }

  function Filled(shape: seq<Slot>, ns: seq<nat>): seq<Part>
    requires |shape| == |ns|
  {
    if shape == [] then [] else [Part(ns[0], shape[0].width, shape[0].after)] + Filled(shape[1..], ns[1..])
  }

  lemma RenderOneMore(p: Part, ps: seq<Part>)
    requires p.n < Pow10(p.width) && Fits(ps)
    ensures Fits([p] + ps) && Render([p] + ps) == Digits(p.n, p.width) + p.after + Render(ps)
  {
    assert ([p] + ps)[1..] == ps;
  }

  lemma Cut(text: string, w: nat, k: nat, after: string)
    requires w <= k <= |text| && text[w..k] == after
    ensures text == text[..w] + after + text[k..]
  {
  }

  /** What a scan has read by the end of the first field. */
  lemma ScanFirst(text: string, shape: seq<Slot>)
    requires shape != [] && Scan(text, shape).Some?
    ensures var w, k := shape[0].width, shape[0].width + |shape[0].after|;
            && k <= |text| && text[w..k] == shape[0].after
            && Read(text[..w]).Some? && Scan(text[k..], shape[1..]).Some?
            && Scan(text, shape).value == [Read(text[..w]).value] + Scan(text[k..], shape[1..]).value
  {
  }

  lemma FilledFirst(shape: seq<Slot>, n: nat, rest: seq<nat>)
    requires shape != [] && |rest| == |shape| - 1
    ensures Filled(shape, [n] + rest) == [Part(n, shape[0].width, shape[0].after)] + Filled(shape[1..], rest)
  {
    assert ([n] + rest)[1..] == rest;
  }

  /** Filling a shape with the numbers scanned from a text renders that text. */
  predicate Refilled(text: string, shape: seq<Slot>, ns: seq<nat>) {
    |ns| == |shape| && Fits(Filled(shape, ns)) && Render(Filled(shape, ns)) == text
  }

  lemma {:induction false} RenderScanned(text: string, shape: seq<Slot>)
    requires Scan(text, shape).Some?
    ensures Refilled(text, shape, Scan(text, shape).value)
    decreases |shape|
  {
    if shape == [] {
    } else {
      ScanFirst(text, shape);
      var w, k := shape[0].width, shape[0].width + |shape[0].after|;
      Cut(text, w, k, shape[0].after);
      RenderScanned(text[k..], shape[1..]);
      RefillOne(text, shape, Read(text[..w]).value, Scan(text[k..], shape[1..]).value);
    }
  }

  lemma RefillOne(text: string, shape: seq<Slot>, n: nat, rest: seq<nat>)
    requires shape != []
    requires var w, k := shape[0].width, shape[0].width + |shape[0].after|;
             && k <= |text| && text == text[..w] + shape[0].after + text[k..]
             && Read(text[..w]) == Some(n) && Refilled(text[k..], shape[1..], rest)
    ensures Refilled(text, shape, [n] + rest)
  {
    DigitsRead(text[..shape[0].width]);
    FilledFirst(shape, n, rest);
    RenderOneMore(Part(n, shape[0].width, shape[0].after), Filled(shape[1..], rest));
  }

  // ---------------------------------------------------------------- the calendar's order

  lemma FourthYears(y: int)
    ensures (y + 1) / 4 == y / 4 + if (y + 1) % 4 == 0 then 1 else 0
  {
  }

  lemma HundredthYears(y: int)
    ensures (y + 1) / 100 == y / 100 + if (y + 1) % 100 == 0 then 1 else 0
  {
  }

  lemma FourHundredthYears(y: int)
    ensures (y + 1) / 400 == y / 400 + if (y + 1) % 400 == 0 then 1 else 0
  {
  }

  /** Every four-hundredth year is a hundredth one. */
  lemma CenturiesNest(year: int)
    requires year % 400 == 0
    ensures year % 100 == 0
  {
    var n := year / 400;
    assert year == n * 400 == (n * 4) * 100;
  }

  /** And every hundredth a fourth. */
  lemma LeapsNest(year: int)
    requires year % 100 == 0
    ensures year % 4 == 0
  {
    var n := year / 100;
    assert year == n * 100 == (n * 25) * 4;
  }

  lemma YearsAddUp(year: int)
    ensures DaysBeforeYear(year + 1) == DaysBeforeYear(year) + 365 + if IsLeap(year) then 1 else 0
  {
    FourthYears(year - 1);
    HundredthYears(year - 1);
    FourHundredthYears(year - 1);
    if year % 400 == 0 {
      CenturiesNest(year);
    }
    if year % 100 == 0 {
      LeapsNest(year);
    }
  }

  lemma {:induction false} YearsInOrder(a: int, b: int)
    requires a <= b
    ensures DaysBeforeYear(a) <= DaysBeforeYear(b)
    decreases b - a
  {
    if a < b {
      YearsInOrder(a, b - 1);
      YearsAddUp(b - 1);
    }
  }

  lemma {:induction false} MonthsInOrder(year: int, a: nat, b: nat)
    requires 1 <= a < b
    ensures DaysBeforeMonth(year, a) + DaysIn(year, a) <= DaysBeforeMonth(year, b)
    decreases b
  {
    if a < b - 1 {
      MonthsInOrder(year, a, b - 1);
    }
  }

  lemma WholeYear(year: int)
    ensures DaysBeforeMonth(year, 12) + DaysIn(year, 12) == 365 + if IsLeap(year) then 1 else 0
  {
    assert DaysBeforeMonth(year, 3) == DaysBeforeMonth(year, 2) + DaysIn(year, 2);
    assert DaysBeforeMonth(year, 5) == DaysBeforeMonth(year, 4) + 30 == DaysBeforeMonth(year, 3) + 61;
    assert DaysBeforeMonth(year, 7) == DaysBeforeMonth(year, 6) + 30 == DaysBeforeMonth(year, 5) + 61;
    assert DaysBeforeMonth(year, 9) == DaysBeforeMonth(year, 8) + 31 == DaysBeforeMonth(year, 7) + 62;
    assert DaysBeforeMonth(year, 11) == DaysBeforeMonth(year, 10) + 31 == DaysBeforeMonth(year, 9) + 61;
    assert DaysBeforeMonth(year, 12) == DaysBeforeMonth(year, 11) + 30;
  }

  predicate DateBefore(x: Datetime, y: Datetime)
    requires x.Utc? && y.Utc?
  {
    x.year < y.year || (x.year == y.year && (x.month < y.month || (x.month == y.month && x.day < y.day)))
  }

  lemma EarlierDate(x: Datetime, y: Datetime)
    requires x.Utc? && y.Utc? && x.Valid() && y.Valid() && DateBefore(x, y)
    ensures Ordinal(x) < Ordinal(y)
  {
    if x.year < y.year {
      if x.month < 12 {
        MonthsInOrder(x.year, x.month, 12);
      }
      if 1 < y.month {
        MonthsInOrder(y.year, 1, y.month);
      }
      WholeYear(x.year);
      YearsAddUp(x.year);
      YearsInOrder(x.year + 1, y.year);
    } else if x.month < y.month {
      MonthsInOrder(x.year, x.month, y.month);
    }
  }

  predicate TimeBefore(x: Datetime, y: Datetime)
    requires x.Utc? && y.Utc?
  {
    x.hour < y.hour || (x.hour == y.hour && (x.minute < y.minute || (x.minute == y.minute &&
      (x.second < y.second || (x.second == y.second && x.micro < y.micro)))))
  }

  predicate Before(x: Datetime, y: Datetime)
    requires x.Utc? && y.Utc?
  {
    DateBefore(x, y) || (!DateBefore(y, x) && TimeBefore(x, y))
  }

  lemma EarlierInstant(x: Datetime, y: Datetime)
    requires x.Utc? && y.Utc? && x.Valid() && y.Valid() && Before(x, y)
    ensures Instant(x) < Instant(y)
  {
    assert 0 <= TimeOfDay(x) < DAY && 0 <= TimeOfDay(y) < DAY;
    if DateBefore(x, y) {
      EarlierDate(x, y);
    } else {
      assert x.year == y.year && x.month == y.month && x.day == y.day;
    }
  }

  lemma InstantOrder(x: Datetime, y: Datetime)
    requires x.Utc? && y.Utc? && x.Valid() && y.Valid()
    ensures Instant(x) < Instant(y) <==> Before(x, y)
    ensures Instant(x) == Instant(y) <==> x == y
  {
    if Before(x, y) {
      EarlierInstant(x, y);
    } else if Before(y, x) {
      EarlierInstant(y, x);
    } else {
      assert x == y;
    }
  }

  lemma PartsOrder(x: Datetime, y: Datetime)
    requires x.Utc? && y.Utc? && x.Valid() && y.Valid()
    ensures Earlier(Parts(x), Parts(y)) <==> Before(x, y)
  {
    var p, q := Parts(x), Parts(y);
    EarlierFrom(p, q, 6);
    EarlierFrom(p, q, 5);
    EarlierFrom(p, q, 4);
    EarlierFrom(p, q, 3);
    assert Earlier(p[3..], q[3..]) <==> TimeBefore(x, y);
    EarlierFrom(p, q, 2);
    EarlierFrom(p, q, 1);
    EarlierFrom(p, q, 0);
    assert p[0..] == p && q[0..] == q;
  }

  lemma EarlierFrom(ps: seq<Part>, qs: seq<Part>, i: nat)
    requires i < |ps| == |qs|
    ensures Earlier(ps[i..], qs[i..])
      <==> ps[i].n < qs[i].n || (ps[i].n == qs[i].n && i + 1 < |ps| && Earlier(ps[i + 1..], qs[i + 1..]))
  {
    assert ps[i..][1..] == ps[i + 1..] && qs[i..][1..] == qs[i + 1..];
  }

  // ---------------------------------------------------------------- columns and instants

  /** Every stamp has one width, and stamps sort as text exactly as the instants they stand for. */
  lemma TextOrderIsTime(x: Datetime, y: Datetime)
    requires x.Utc? && y.Utc? && x.Valid() && y.Valid()
    ensures var a, b := ToColumn(x).value, ToColumn(y).value;
            && |a| == |b| == 32
            && (TextLess(a, b) <==> Instant(x) < Instant(y))
            && (a == b <==> Instant(x) == Instant(y))
  {
    PartsFit(x);
    PartsFit(y);
    RenderOrder(Parts(x), Parts(y));
    PartsOrder(x, y);
    InstantOrder(x, y);
    WidthOf(x);
    WidthOf(y);
    RoundTrip(x);
    RoundTrip(y);
  }

  lemma WidthOf(x: Datetime)
    requires x.Utc? && x.Valid()
    ensures |ToColumn(x).value| == 32
  {
    PartsFit(x);
    RenderWidth(Parts(x));
    PartsShape(x);
    assert Width(SHAPE[6..]) == 12 by {
      assert SHAPE[6..][1..] == [];
    }
    assert Width(SHAPE[4..]) == 18 by {
      assert SHAPE[4..][1..][1..] == SHAPE[6..];
    }
    assert Width(SHAPE[2..]) == 24 by {
      assert SHAPE[2..][1..][1..] == SHAPE[4..];
    }
    assert SHAPE[1..][1..] == SHAPE[2..];
  }

  function Width(shape: seq<Slot>): nat {
    if shape == [] then 0 else shape[0].width + |shape[0].after| + Width(shape[1..])
  }

  lemma {:induction false} RenderWidth(ps: seq<Part>)
    requires Fits(ps)
    ensures |Render(ps)| == Width(Shape(ps))
    decreases |ps|
  {
    if ps == [] {
    } else {
      assert forall i :: 1 <= i < |ps| ==> ps[1..][i - 1] == ps[i];
      RenderWidth(ps[1..]);
      assert Shape(ps)[1..] == Shape(ps[1..]);
    }
  }

  lemma ShapeOneMore(p: Part, ps: seq<Part>)
    ensures Shape([p] + ps) == [Slot(p.width, p.after)] + Shape(ps) && Numbers([p] + ps) == [p.n] + Numbers(ps)
  {
    assert ([p] + ps)[1..] == ps;
  }

  lemma ShapeOfThree(p: Part, q: Part, r: Part)
    ensures Shape([p, q, r]) == [Slot(p.width, p.after), Slot(q.width, q.after), Slot(r.width, r.after)]
    ensures Numbers([p, q, r]) == [p.n, q.n, r.n]
  {
    assert [p, q, r] == [p] + ([q] + ([r] + []));
    ShapeOneMore(r, []);
    ShapeOneMore(q, [r] + []);
    ShapeOneMore(p, [q] + ([r] + []));
  }

  lemma PartsShape(x: Datetime)
    requires x.Utc? && x.Valid()
    ensures Shape(Parts(x)) == SHAPE
    ensures Numbers(Parts(x)) == [x.year, x.month, x.day, x.hour, x.minute, x.second, x.micro]
  {
    var p := Parts(x);
    ShapeOfThree(p[4], p[5], p[6]);
    ShapeOneMore(p[3], [p[4], p[5], p[6]]);
    ShapeOneMore(p[2], [p[3]] + [p[4], p[5], p[6]]);
    ShapeOneMore(p[1], [p[2]] + ([p[3]] + [p[4], p[5], p[6]]));
    ShapeOneMore(p[0], [p[1]] + ([p[2]] + ([p[3]] + [p[4], p[5], p[6]])));
    assert p == [p[0]] + ([p[1]] + ([p[2]] + ([p[3]] + [p[4], p[5], p[6]])));
  }

  /** What is written reads back unchanged. */
  lemma RoundTrip(x: Datetime)
    requires x.Utc? && x.Valid()
    ensures FromColumn(ToColumn(x).value) == Some(x)
  {
    PartsFit(x);
    ScanRendered(Parts(x));
    PartsShape(x);
  }

  /** What reads as an instant is the very text that instant is written as. */
  lemma ReadIsWritten(text: string)
    requires FromColumn(text).Some?
    ensures var x := FromColumn(text).value; x.Utc? && x.Valid() && ToColumn(x) == Some(text)
  {
    RenderScanned(text, SHAPE);
    var x, ns := FromColumn(text).value, Scan(text, SHAPE).value;
    PartsFit(x);
    PartsShape(x);
    FilledBack(Parts(x));
    assert ns == Numbers(Parts(x));
  }

  lemma {:induction false} FilledBack(ps: seq<Part>)
    ensures |Shape(ps)| == |ps| == |Numbers(ps)| && Filled(Shape(ps), Numbers(ps)) == ps
    decreases |ps|
  {
    if ps == [] {
    } else {
      FilledBack(ps[1..]);
      assert Shape(ps)[1..] == Shape(ps[1..]) && Numbers(ps)[1..] == Numbers(ps[1..]);
    }
  }

  lemma RenderOne(p: Part, ps: seq<Part>)
    requires p.n < Pow10(p.width) && Fits(ps)
    ensures Fits([p] + ps) && Render([p] + ps) == Digits(p.n, p.width) + p.after + Render(ps)
  {
    assert forall i :: 0 <= i < |ps| ==> ps[i] == ([p] + ps)[i + 1];
    assert ([p] + ps)[1..] == ps;
  }

  lemma RenderThree(p: Part, q: Part, r: Part)
    requires p.n < Pow10(p.width) && q.n < Pow10(q.width) && r.n < Pow10(r.width)
    ensures Fits([p, q, r])
    ensures Render([p, q, r]) == Digits(p.n, p.width) + p.after + (Digits(q.n, q.width) + q.after
                                   + (Digits(r.n, r.width) + r.after))
  {
    assert [p, q, r] == [p] + ([q] + ([r] + []));
    RenderOne(r, []);
    assert Digits(r.n, r.width) + r.after + "" == Digits(r.n, r.width) + r.after;
    RenderOne(q, [r] + []);
    RenderOne(p, [q] + ([r] + []));
  }

  lemma RenderSeven(p: seq<Part>)
    requires |p| == 7 && Fits(p)
    ensures Fits(p[4..]) && Fits(p[1..])
    ensures Render(p) == Digits(p[0].n, p[0].width) + p[0].after + (Digits(p[1].n, p[1].width) + p[1].after
              + (Digits(p[2].n, p[2].width) + p[2].after + (Digits(p[3].n, p[3].width) + p[3].after
              + Render(p[4..]))))
  {
    assert p[3..] == [p[3]] + p[4..] && p[2..] == [p[2]] + p[3..] && p[1..] == [p[1]] + p[2..] && p == [p[0]] + p[1..];
    RenderOne(p[3], p[4..]);
    RenderOne(p[2], p[3..]);
    RenderOne(p[1], p[2..]);
    RenderOne(p[0], p[1..]);
  }

  /** What a column reads like: `YYYY-MM-DDTHH:MM:SS.ffffff+00:00`, and nothing for a naive datetime. */
  lemma WrittenAs(x: Datetime)
    requires x.Valid()
    ensures ToColumn(x).None? <==> x.Naive?
    ensures x.Utc? ==>
              (PartsFit(x);
               ToColumn(x).value ==
                 Digits(x.year, 4) + "-" + (Digits(x.month, 2) + "-" + (Digits(x.day, 2) + "T" +
                 (Digits(x.hour, 2) + ":" + (Digits(x.minute, 2) + ":" + (Digits(x.second, 2) + "." +
                 (Digits(x.micro, 6) + "+00:00")))))))
  {
    if x.Utc? {
      PartsFit(x);
      var p := Parts(x);
      RenderSeven(p);
      assert p[4..] == [p[4], p[5], p[6]];
      RenderThree(p[4], p[5], p[6]);
    }
  }

  predicate IsNextDate(x: Datetime, y: Datetime)
    requires x.Utc? && y.Utc?
  {
    || ((y.year, y.month, y.day) == (x.year, x.month, x.day + 1))
    || (x.day == DaysIn(x.year, x.month) && (y.year, y.month, y.day) == (x.year, x.month + 1, 1))
    || ((x.month, x.day) == (12, 31) && (y.year, y.month, y.day) == (x.year + 1, 1, 1))
  }

  /** Days are counted without a gap from 1 January of year 1, and February has its leap day in 2000 and not in 1900. */
  lemma NextDayIsOneLater(x: Datetime, y: Datetime)
    requires x.Utc? && x.Valid() && y.Utc? && y.Valid() && IsNextDate(x, y)
    ensures Ordinal(y) == Ordinal(x) + 1
    ensures (x.year, x.month, x.day) == (1, 1, 1) ==> Ordinal(x) == 1
    ensures (x.month, x.day) == (2, 28) && x.year in {2000, 2024} ==> y.day == 29
    ensures (x.month, x.day) == (2, 28) && x.year in {1900, 2023} ==> y.day == 1
  {
    YearsAddUp(x.year);
    WholeYear(x.year);
  }
}
