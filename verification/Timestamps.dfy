/**
 * UTC timestamps as the store writes them (time.RFC3339Nano: trailing zeros of the fraction are
 * dropped, and so is an all-zero fraction) and as SQLite compares them (byte by byte).
 */
module Timestamps {

  newtype Digit = d: int | 0 <= d < 10

  /** An instant: whole seconds as calendar fields, and nine fractional digits. */
  datatype Time = Time(year: nat, month: nat, day: nat, hour: nat, minute: nat, second: nat, fraction: seq<Digit>)

  predicate Proper(t: Time) {
    && t.year < 10000 && t.month < 100 && t.day < 100 && t.hour < 100 && t.minute < 100 && t.second < 100
    && |t.fraction| == 9
  }

  // ---------------------------------------------------------------- printing

  function DigitChar(d: Digit): char {
    '0' + (d as int) as char
  }

  /** n in exactly `width` decimal digits. */
  function Padded(n: nat, width: nat): (s: string)
    ensures |s| == width
  {
    if width == 0 then "" else Padded(n / 10, width - 1) + [DigitChar((n % 10) as Digit)]
  }

  function WholeSeconds(t: Time): (s: string)
    ensures |s| == 19
  {
    Padded(t.year, 4) + "-" + Padded(t.month, 2) + "-" + Padded(t.day, 2) + "T"
    + Padded(t.hour, 2) + ":" + Padded(t.minute, 2) + ":" + Padded(t.second, 2)
  }

  function Trimmed(ds: seq<Digit>): (r: seq<Digit>)
    ensures r <= ds
  {
    if ds != [] && ds[|ds| - 1] == 0 then Trimmed(ds[..|ds| - 1]) else ds
  }

  function Chars(ds: seq<Digit>): (s: string)
    ensures |s| == |ds|
    ensures forall i :: 0 <= i < |ds| ==> s[i] == DigitChar(ds[i])
  {
    if ds == [] then "" else [DigitChar(ds[0])] + Chars(ds[1..])
  }

  function Tail(ds: seq<Digit>): string {
    if Trimmed(ds) == [] then "Z" else "." + Chars(Trimmed(ds)) + "Z"
  }

  function Format(t: Time): string {
    WholeSeconds(t) + Tail(t.fraction)
  }

  // ---------------------------------------------------------------- string order

  /** a < b as SQLite's BINARY collation decides it. */
  predicate Less(a: string, b: string) {
    b != [] && (a == [] || a[0] < b[0] || (a[0] == b[0] && Less(a[1..], b[1..])))
  }

  lemma {:induction false} LessIrreflexive(a: string)
    ensures !Less(a, a)
  {
    if a != [] { LessIrreflexive(a[1..]); }
  }

  /** Fields of equal width compare first; what follows decides only ties. */
  lemma {:induction false} LessByPrefix(a: string, x: string, b: string, y: string)
    requires |a| == |b|
    ensures Less(a + x, b + y) <==> Less(a, b) || (a == b && Less(x, y))
  {
    if a == [] {
      assert a + x == x && b + y == y;
    } else {
      assert (a + x)[0] == a[0] && (a + x)[1..] == a[1..] + x;
      assert (b + y)[0] == b[0] && (b + y)[1..] == b[1..] + y;
      LessByPrefix(a[1..], x, b[1..], y);
      assert a == [a[0]] + a[1..] && b == [b[0]] + b[1..];
    }
  }

  // ---------------------------------------------------------------- numbers

  function Pow10(width: nat): nat {
    if width == 0 then 1 else 10 * Pow10(width - 1)
  }

  lemma {:induction false} PaddedOrder(m: nat, n: nat, width: nat)
    requires m < Pow10(width) && n < Pow10(width)
    ensures Less(Padded(m, width), Padded(n, width)) <==> m < n
    ensures Padded(m, width) == Padded(n, width) <==> m == n
  {
    if width > 0 {
      var a, b := Padded(m / 10, width - 1), Padded(n / 10, width - 1);
      var x, y := [DigitChar((m % 10) as Digit)], [DigitChar((n % 10) as Digit)];
      PaddedOrder(m / 10, n / 10, width - 1);
      LessByPrefix(a, x, b, y);
      assert Less(x, y) <==> m % 10 < n % 10;
      assert a + x == b + y <==> a == b && x == y by {
        if a + x == b + y { assert a == (a + x)[..|a|] && b == (b + y)[..|b|]; assert x[0] == (a + x)[|a|] && y[0] == (b + y)[|b|]; }
      }
    }
  }

  // ---------------------------------------------------------------- whole seconds

  predicate SameSecond(t: Time, u: Time) {
    t.(fraction := []) == u.(fraction := [])
  }

  /** t lies in an earlier whole second than u. */
  predicate SecondsBefore(t: Time, u: Time) {
    || t.year < u.year
    || (t.year == u.year && (t.month < u.month
    || (t.month == u.month && (t.day < u.day
    || (t.day == u.day && (t.hour < u.hour
    || (t.hour == u.hour && (t.minute < u.minute
    || (t.minute == u.minute && t.second < u.second)))))))))
  }

  /** One more field, after a separator. */
  lemma {:induction false} FieldOrder(a: string, b: string, sep: string, m: nat, n: nat)
    requires |a| == |b| && m < 100 && n < 100
    ensures Less(a + sep + Padded(m, 2), b + sep + Padded(n, 2)) <==> Less(a, b) || (a == b && m < n)
    ensures a + sep + Padded(m, 2) == b + sep + Padded(n, 2) <==> a == b && m == n
  {
    assert Pow10(1) == 10 && Pow10(2) == 100;
    PaddedOrder(m, n, 2);
    var x, y := Padded(m, 2), Padded(n, 2);
    LessByPrefix(a + sep, x, b + sep, y);
    LessByPrefix(a, sep, b, sep);
    LessIrreflexive(sep);
    SameParts(a + sep, x, b + sep, y);
    SameParts(a, sep, b, sep);
  }

  lemma SameParts(a: string, x: string, b: string, y: string)
    requires |a| == |b|
    ensures a + x == b + y <==> a == b && x == y
  {
    if a + x == b + y {
      assert a == (a + x)[..|a|] && b == (b + y)[..|b|];
      assert x == (a + x)[|a|..] && y == (b + y)[|b|..];
    }
  }

  lemma SecondsOrder(t: Time, u: Time)
    requires Proper(t) && Proper(u)
    ensures Less(WholeSeconds(t), WholeSeconds(u)) <==> SecondsBefore(t, u)
    ensures WholeSeconds(t) == WholeSeconds(u) <==> SameSecond(t, u)
  {
    assert Pow10(1) == 10 && Pow10(2) == 100 && Pow10(3) == 1000 && Pow10(4) == 10000;
    PaddedOrder(t.year, u.year, 4);
    var a1, b1 := Padded(t.year, 4), Padded(u.year, 4);
    FieldOrder(a1, b1, "-", t.month, u.month);
    var a2, b2 := a1 + "-" + Padded(t.month, 2), b1 + "-" + Padded(u.month, 2);
    FieldOrder(a2, b2, "-", t.day, u.day);
    var a3, b3 := a2 + "-" + Padded(t.day, 2), b2 + "-" + Padded(u.day, 2);
    FieldOrder(a3, b3, "T", t.hour, u.hour);
    var a4, b4 := a3 + "T" + Padded(t.hour, 2), b3 + "T" + Padded(u.hour, 2);
    FieldOrder(a4, b4, ":", t.minute, u.minute);
    var a5, b5 := a4 + ":" + Padded(t.minute, 2), b4 + ":" + Padded(u.minute, 2);
    FieldOrder(a5, b5, ":", t.second, u.second);
  }

  // ---------------------------------------------------------------- fractions

  /** Numeric order of two fractions with equally many digits. */
  predicate DigitsLess(f: seq<Digit>, g: seq<Digit>)
    requires |f| == |g|
  {
    f != [] && (f[0] < g[0] || (f[0] == g[0] && DigitsLess(f[1..], g[1..])))
  }

  /** t is an earlier instant than u. */
  predicate Before(t: Time, u: Time)
    requires Proper(t) && Proper(u)
  {
    SecondsBefore(t, u) || (SameSecond(t, u) && DigitsLess(t.fraction, u.fraction))
  }

  lemma {:induction false} TrimmedFront(x: Digit, f: seq<Digit>)
    ensures Trimmed([x] + f) == if Trimmed(f) == [] && x == 0 then [] else [x] + Trimmed(f)
  {
    var xf := [x] + f;
    assert xf[..|f|] == if f == [] then [] else [x] + f[..|f| - 1];
    if f != [] && f[|f| - 1] == 0 {
      assert xf[|f|] == 0;
      TrimmedFront(x, f[..|f| - 1]);
    }
  }

  /** Digits followed by 'Z': a longer fraction is smaller, since every digit sorts below 'Z'. */
  predicate ZLess(a: seq<Digit>, b: seq<Digit>) {
    a != [] && (b == [] || a[0] < b[0] || (a[0] == b[0] && ZLess(a[1..], b[1..])))
  }

  lemma {:induction false} CharsOrder(a: seq<Digit>, b: seq<Digit>)
    ensures Less(Chars(a) + "Z", Chars(b) + "Z") <==> ZLess(a, b)
  {
    if a != [] { assert (Chars(a) + "Z")[1..] == Chars(a[1..]) + "Z"; }
    if b != [] { assert (Chars(b) + "Z")[1..] == Chars(b[1..]) + "Z"; }
    if a == [] && b == [] {
      LessIrreflexive("Z");
    }
    if a != [] && b != [] {
      CharsOrder(a[1..], b[1..]);
    }
  }

  lemma {:induction false} TrimmedOrder(f: seq<Digit>, g: seq<Digit>)
    requires |f| == |g| && DigitsLess(f, g)
    ensures Trimmed(g) != []
    ensures ZLess(Trimmed(f), Trimmed(g)) <==> !(Trimmed(f) <= Trimmed(g))
  {
    assert f == [f[0]] + f[1..] && g == [g[0]] + g[1..];
    TrimmedFront(f[0], f[1..]);
    TrimmedFront(g[0], g[1..]);
    if f[0] == g[0] {
      TrimmedOrder(f[1..], g[1..]);
      var a, b := Trimmed(f[1..]), Trimmed(g[1..]);
      assert ([f[0]] + a)[1..] == a && ([g[0]] + b)[1..] == b;
    }
  }

  /** A dot before both, or after neither, changes nothing; and a dot sorts below 'Z'. */
  lemma DottedLess(x: string, y: string)
    ensures Less("." + x, "." + y) <==> Less(x, y)
    ensures Less("." + x, "Z") && !Less("Z", "." + x)
  {
    LessByPrefix(".", x, ".", y);
    LessIrreflexive(".");
    assert ("." + x)[0] == '.';
  }

  lemma {:induction false} TailLess(f: seq<Digit>, g: seq<Digit>)
    ensures Less(Tail(f), Tail(g)) <==> ZLess(Trimmed(f), Trimmed(g))
  {
    var a, b := Trimmed(f), Trimmed(g);
    var x, y := Chars(a) + "Z", Chars(b) + "Z";
    assert "." + Chars(a) + "Z" == "." + x && "." + Chars(b) + "Z" == "." + y;
    DottedLess(x, y);
    DottedLess(y, x);
    if a == [] && b == [] {
      LessIrreflexive("Z");
    } else if a != [] && b != [] {
      CharsOrder(a, b);
    }
  }

  lemma {:induction false} DigitsTotal(f: seq<Digit>, g: seq<Digit>)
    requires |f| == |g|
    ensures DigitsLess(f, g) || DigitsLess(g, f) || f == g
    ensures !(DigitsLess(f, g) && DigitsLess(g, f)) && (f == g ==> !DigitsLess(f, g))
  {
    if f != [] {
      DigitsTotal(f[1..], g[1..]);
      assert f == [f[0]] + f[1..] && g == [g[0]] + g[1..];
    }
  }

  lemma {:induction false} ZTotal(a: seq<Digit>, b: seq<Digit>)
    ensures ZLess(a, b) || ZLess(b, a) || a == b
    ensures !(ZLess(a, b) && ZLess(b, a)) && (a == b ==> !ZLess(a, b))
  {
    if a != [] && b != [] {
      ZTotal(a[1..], b[1..]);
      assert a == [a[0]] + a[1..] && b == [b[0]] + b[1..];
    }
  }

  lemma {:induction false} TrimmedInjective(f: seq<Digit>, g: seq<Digit>)
    requires |f| == |g| && Trimmed(f) == Trimmed(g)
    ensures f == g
  {
    if f != [] {
      assert f == [f[0]] + f[1..] && g == [g[0]] + g[1..];
      TrimmedFront(f[0], f[1..]);
      TrimmedFront(g[0], g[1..]);
      var a, b := Trimmed(f[1..]), Trimmed(g[1..]);
      assert ([f[0]] + a)[1..] == a && ([g[0]] + b)[1..] == b;
      TrimmedInjective(f[1..], g[1..]);
    }
  }

  /** The printed fractions sort as they should unless the earlier begins the later, and then they sort the other way. */
  lemma {:induction false} TailOrder(f: seq<Digit>, g: seq<Digit>)
    requires |f| == |g| && DigitsLess(f, g)
    ensures Less(Tail(f), Tail(g)) <==> !(Trimmed(f) <= Trimmed(g))
    ensures Less(Tail(g), Tail(f)) <==> Trimmed(f) <= Trimmed(g)
  {
    TrimmedOrder(f, g);
    TailLess(f, g);
    TailLess(g, f);
    ZTotal(Trimmed(f), Trimmed(g));
    DigitsTotal(f, g);
    if Trimmed(f) == Trimmed(g) { TrimmedInjective(f, g); }
  }

  // ---------------------------------------------------------------- main results

  /**
   * String order against time order, exactly.  In different whole seconds the two agree.  Within one
   * second they agree unless the earlier instant's printed fraction begins the later one's; then the
   * later instant sorts first.
   */
  lemma FormatOrder(t: Time, u: Time)
    requires Proper(t) && Proper(u)
    ensures !SameSecond(t, u) ==> (Less(Format(t), Format(u)) <==> Before(t, u))
    ensures SameSecond(t, u) && Before(t, u) ==>
      && (Less(Format(t), Format(u)) <==> !(Trimmed(t.fraction) <= Trimmed(u.fraction)))
      && (Less(Format(u), Format(t)) <==> Trimmed(t.fraction) <= Trimmed(u.fraction))
    ensures t == u ==> !Less(Format(t), Format(u))
    ensures SameSecond(t, u) ==> Before(t, u) || Before(u, t) || t == u
  {
    SecondsOrder(t, u);
    SecondsOrder(u, t);
    LessByPrefix(WholeSeconds(t), Tail(t.fraction), WholeSeconds(u), Tail(u.fraction));
    LessByPrefix(WholeSeconds(u), Tail(u.fraction), WholeSeconds(t), Tail(t.fraction));
    LessIrreflexive(WholeSeconds(t));
    LessIrreflexive(Format(t));
    if SameSecond(t, u) {
      DigitsTotal(t.fraction, u.fraction);
      if Before(t, u) {
        TailOrder(t.fraction, u.fraction);
      }
    }
  }

  /** Two instants in one second whose string order is the wrong way round: .5 and .55. */
  lemma WrongWithinASecond(t: Time, u: Time)
    requires Proper(t) && Proper(u) && SameSecond(t, u)
    requires t.fraction == [5, 0, 0, 0, 0, 0, 0, 0, 0] && u.fraction == [5, 5, 0, 0, 0, 0, 0, 0, 0]
    ensures Before(t, u) && Less(Format(u), Format(t))
  {
    var zeros: seq<Digit> := [0, 0, 0, 0, 0, 0, 0];
    TrimmedZeros(zeros);
    assert t.fraction == [5] + ([0] + zeros) && u.fraction == [5] + ([5] + zeros);
    TrimmedFront(0, zeros);
    TrimmedFront(5, [0] + zeros);
    TrimmedFront(5, zeros);
    TrimmedFront(5, [5] + zeros);
    assert DigitsLess(t.fraction, u.fraction) by { assert t.fraction[1..][0] == 0 && u.fraction[1..][0] == 5; }
    FormatOrder(t, u);
  }

  lemma {:induction false} TrimmedZeros(ds: seq<Digit>)
    requires forall i :: 0 <= i < |ds| ==> ds[i] == 0
    ensures Trimmed(ds) == []
  {
    if ds != [] { TrimmedZeros(ds[..|ds| - 1]); }
  }
}
