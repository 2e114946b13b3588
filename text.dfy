/**
 * Strings as the queries and the renderer produce and read them: decimal
 * digits, fixed-width zero padding (DATE_FORMAT, strftime), the code-point
 * order used by sorted() and ORDER BY, the rounding rules of ROUND and of
 * Python's '%.Nf', and the percent texts that travel from SQL to the charts.
 */
module Text {
  import opened Wrappers

  function Pow10(n: nat): (r: nat)
    ensures r >= 1
  {
    if n == 0 then 1 else 10 * Pow10(n - 1)
  }

  predicate IsDigit(c: char)
  {
    '0' <= c <= '9'
  }

  predicate AllDigits(s: string)
  {
    forall i :: 0 <= i < |s| ==> IsDigit(s[i])
  }

  function DigitChar(d: nat): (c: char)
    requires d < 10
    ensures IsDigit(c) && c as int - '0' as int == d
  {
    ('0' as int + d) as char
  }

  /** The number a string of decimal digits denotes. */
  function DigitsValue(s: string): nat
    requires AllDigits(s)
  {
    if s == [] then 0
    else 10 * DigitsValue(s[..|s| - 1]) + (s[|s| - 1] as int - '0' as int)
  }

  lemma DigitsValueSnoc(s: string, c: char)
    requires AllDigits(s) && IsDigit(c)
    ensures AllDigits(s + [c])
    ensures DigitsValue(s + [c]) == 10 * DigitsValue(s) + (c as int - '0' as int)
  {
    assert (s + [c])[..|s|] == s;
  }

  /** Decimal text of a natural number without leading zeros, as str(int) prints it. */
  function NatToString(n: nat): (s: string)
    ensures |s| >= 1 && AllDigits(s)
    ensures DigitsValue(s) == n
    ensures s[0] != '0' || n == 0
    decreases n
  {
    if n < 10 then [DigitChar(n)]
    else
      var p := NatToString(n / 10);
      DigitsValueSnoc(p, DigitChar(n % 10));
      p + [DigitChar(n % 10)]
  }

  /** `n` in exactly `w` digits, zero padded on the left (%Y, %m, %d, %02d). */
  function Pad(w: nat, n: nat): (s: string)
    requires n < Pow10(w)
    ensures |s| == w && AllDigits(s)
    ensures DigitsValue(s) == n
  {
    if w == 0 then []
    else
      var p := Pad(w - 1, n / 10);
      DigitsValueSnoc(p, DigitChar(n % 10));
      p + [DigitChar(n % 10)]
  }

  lemma PadInjective(w: nat, x: nat, y: nat)
    requires x < Pow10(w) && y < Pow10(w)
    ensures Pad(w, x) == Pad(w, y) <==> x == y
  {
  }

  /** Two concatenations with equal-length heads are equal exactly part by part. */
  lemma SameLengthConcat(a: string, b: string, c: string, d: string)
    requires |a| == |c| && a + b == c + d
    ensures a == c && b == d
  {
    assert a == (a + b)[..|a|] && c == (c + d)[..|c|];
    assert b == (a + b)[|a|..] && d == (c + d)[|c|..];
  }

  // ---------------------------------------------------------------------
  // Code-point order of strings: Python's str comparison and sorted().

  predicate StrLt(a: string, b: string)
  {
    if a == [] then b != []
    else if b == [] then false
    else if a[0] != b[0] then a[0] < b[0]
    else StrLt(a[1..], b[1..])
  }

  predicate StrLe(a: string, b: string)
  {
    a == b || StrLt(a, b)
  }

  lemma {:induction false} StrLtIrreflexive(a: string)
    ensures !StrLt(a, a)
  {
    if a != [] {
      StrLtIrreflexive(a[1..]);
    }
  }

  lemma {:induction false} StrLtTransitive(a: string, b: string, c: string)
    requires StrLt(a, b) && StrLt(b, c)
    ensures StrLt(a, c)
  {
    if a != [] && b != [] && c != [] && a[0] == b[0] && b[0] == c[0] {
      StrLtTransitive(a[1..], b[1..], c[1..]);
    }
  }

  lemma {:induction false} StrLtTrichotomy(a: string, b: string)
    ensures a == b || StrLt(a, b) || StrLt(b, a)
  {
    if a != [] && b != [] && a[0] == b[0] {
      StrLtTrichotomy(a[1..], b[1..]);
      if a[1..] == b[1..] {
        assert a == [a[0]] + a[1..] && b == [b[0]] + b[1..];
      }
    }
  }

  lemma StrLtAsymmetric(a: string, b: string)
    requires StrLt(a, b)
    ensures !StrLt(b, a)
  {
    if StrLt(b, a) {
      StrLtTransitive(a, b, a);
      StrLtIrreflexive(a);
    }
  }

  /** Comparing two texts whose first parts have the same length. */
  lemma {:induction false} StrLtConcat(a1: string, b1: string, a2: string, b2: string)
    requires |a1| == |a2|
    ensures StrLt(a1 + b1, a2 + b2) <==> StrLt(a1, a2) || (a1 == a2 && StrLt(b1, b2))
  {
    if a1 == [] {
      assert a1 + b1 == b1 && a2 + b2 == b2;
    } else {
      assert (a1 + b1)[0] == a1[0] && (a2 + b2)[0] == a2[0];
      assert (a1 + b1)[1..] == a1[1..] + b1 && (a2 + b2)[1..] == a2[1..] + b2;
      StrLtConcat(a1[1..], b1, a2[1..], b2);
      if a1[0] == a2[0] {
        assert a1 == a2 <==> a1[1..] == a2[1..] by {
          assert a1 == [a1[0]] + a1[1..] && a2 == [a2[0]] + a2[1..];
        }
      }
    }
  }

  lemma DivModOrder(x: nat, y: nat)
    ensures x < y <==> x / 10 < y / 10 || (x / 10 == y / 10 && x % 10 < y % 10)
  {
    assert x == 10 * (x / 10) + x % 10;
    assert y == 10 * (y / 10) + y % 10;
  }

  lemma StrLtSingle(a: char, b: char)
    ensures StrLt([a], [b]) <==> a < b
  {
    assert [a][1..] == [] && [b][1..] == [];
  }

  /** Zero-padded numbers of one width sort as the numbers do. */
  lemma {:induction false} PadOrder(w: nat, x: nat, y: nat)
    requires x < Pow10(w) && y < Pow10(w)
    ensures StrLt(Pad(w, x), Pad(w, y)) <==> x < y
  {
    if w > 0 {
      var px, py := Pad(w - 1, x / 10), Pad(w - 1, y / 10);
      var dx, dy := DigitChar(x % 10), DigitChar(y % 10);
      assert Pad(w, x) == px + [dx] && Pad(w, y) == py + [dy];
      StrLtConcat(px, [dx], py, [dy]);
      PadOrder(w - 1, x / 10, y / 10);
      PadInjective(w - 1, x / 10, y / 10);
      StrLtSingle(dx, dy);
      DivModOrder(x, y);
    }
  }

  // ---------------------------------------------------------------------
  // Rounding of an exact quotient n / d.

  /**
   * MySQL ROUND(n / d, 0) of an exact non-negative value: the nearest
   * integer, halves rounded up.
   */
  function RoundHalfUp(n: nat, d: nat): (r: nat)
    requires d > 0
    ensures (2 * r - 1) * d <= 2 * n < (2 * r + 1) * d
  {
    var q := (2 * n + d) / (2 * d);
    assert 2 * n + d == 2 * d * q + (2 * n + d) % (2 * d);
    q
  }

  /**
   * `r` is the exact quotient n / d rounded to the nearest integer with
   * halves away from zero, as MySQL's ROUND treats an exact value.
   */
  predicate RoundsTo(n: int, d: nat, r: int)
  {
    d > 0 &&
    if n >= 0 then (2 * r - 1) * d <= 2 * n < (2 * r + 1) * d
    else (2 * r - 1) * d < 2 * n <= (2 * r + 1) * d
  }

  /** At most one integer is the rounding of a quotient. */
  lemma RoundsToUnique(n: int, d: nat, r1: int, r2: int)
    requires RoundsTo(n, d, r1) && RoundsTo(n, d, r2)
    ensures r1 == r2
  {
    if r1 < r2 {
      MulMono(2 * r1 + 1, 2 * r2 - 1, d);
    } else if r2 < r1 {
      MulMono(2 * r2 + 1, 2 * r1 - 1, d);
    }
  }

  lemma MulMono(a: int, b: int, k: nat)
    requires a <= b
    ensures a * k <= b * k
  {
  }

  /** MySQL ROUND of an exact value of either sign: halves away from zero. */
  function RoundHalfAway(n: int, d: nat): (r: int)
    requires d > 0
    ensures RoundsTo(n, d, r)
    ensures (r >= 0) == (n >= 0) || r == 0
    ensures n >= 0 ==> (2 * r - 1) * d <= 2 * n < (2 * r + 1) * d
    ensures n < 0 ==> (2 * r - 1) * d < 2 * n <= (2 * r + 1) * d
  {
    if n >= 0 then RoundHalfUp(n, d) else var u: int := RoundHalfUp(-n, d); -u
  }

  /**
   * Python's '%.Nf' of an exact non-negative value (scaled so that the
   * last shown digit is the unit): the nearest integer, ties to even.
   */
  function RoundHalfEven(n: nat, d: nat): (r: nat)
    requires d > 0
    ensures (2 * r - 1) * d <= 2 * n <= (2 * r + 1) * d
    ensures (2 * n == (2 * r - 1) * d || 2 * n == (2 * r + 1) * d) ==> r % 2 == 0
  {
    var q, m := n / d, n % d;
    var r := if 2 * m > d then q + 1 else if 2 * m < d then q else if q % 2 == 0 then q else q + 1;
    HalfEvenBounds(n, d, q, m, r);
    r
  }

  lemma HalfEvenBounds(n: nat, d: nat, q: nat, m: nat, r: nat)
    requires d > 0 && n == d * q + m && m < d
    requires r == q || r == q + 1
    requires r == q ==> 2 * m <= d
    requires r == q + 1 ==> 2 * m >= d
    requires 2 * m == d ==> r % 2 == 0
    ensures (2 * r - 1) * d <= 2 * n <= (2 * r + 1) * d
    ensures (2 * n == (2 * r - 1) * d || 2 * n == (2 * r + 1) * d) ==> r % 2 == 0
  {
    var dq := d * q;
    assert (2 * r - 1) * d == 2 * (d * r) - d && (2 * r + 1) * d == 2 * (d * r) + d;
    assert r == q + 1 ==> d * r == dq + d;
  }

  // ---------------------------------------------------------------------
  // Fixed-point texts.

  /** A value in hundredths with two decimals: ROUND(x, 2) as MySQL prints it, '%.2f'. */
  function Fixed2(h: int): string
  {
    var a := if h < 0 then -h else h;
    (if h < 0 then "-" else "") + NatToString(a / 100) + "." + Pad(2, a % 100)
  }

  /** A value in tenths with one decimal: '%.1f'. */
  function Fixed1(t: nat): string
  {
    NatToString(t / 10) + "." + [DigitChar(t % 10)]
  }

  /** CONCAT(ROUND(x, 2), '%'): the rate texts of the team, agent and KPI tables. */
  function PercentText(h: nat): string
  {
    Fixed2(h) + "%"
  }

  /**
   * str(float(x)) for a value of at most two decimals given in hundredths:
   * Python's shortest round-tripping form, which keeps one decimal at least.
   */
  function FloatRepr(h: nat): string
  {
    var i, f := h / 100, h % 100;
    if f == 0 then NatToString(i) + ".0"
    else if f % 10 == 0 then NatToString(i) + "." + [DigitChar(f / 10)]
    else NatToString(i) + "." + Pad(2, f)
  }

  /** Python's str.rstrip('%'). */
  function RStripPercent(s: string): (r: string)
    ensures |r| <= |s| && r == s[..|r|]
    ensures r == [] || r[|r| - 1] != '%'
    ensures forall i :: |r| <= i < |s| ==> s[i] == '%'
  {
    if s == [] || s[|s| - 1] != '%' then s else RStripPercent(s[..|s| - 1])
  }

  function IndexOfDot(s: string): (k: nat)
    ensures k <= |s|
    ensures forall i :: 0 <= i < k ==> s[i] != '.'
    ensures k < |s| ==> s[k] == '.'
  {
    if s == [] then 0
    else if s[0] == '.' then 0
    else 1 + IndexOfDot(s[1..])
  }

  /**
   * float(s) for the decimal texts of this report, in hundredths: digits,
   * optionally a point and one or two more digits. Any other text is an
   * error (None), as 'None' or "b'...'" is for float().
   */
  function ParseHundredths(s: string): (r: Option<nat>)
  {
    var k := IndexOfDot(s);
    if k < |s| then Dotted(s[..k], s[k + 1..])
    else if s == [] || !AllDigits(s) then None
    else Some(100 * DigitsValue(s))
  }

  /** The value of a text with a point: the digits `ip` before it and `fp` after it, one or two of them. */
  function Dotted(ip: string, fp: string): Option<nat>
  {
    if ip == [] || !AllDigits(ip) || !AllDigits(fp) || |fp| == 0 || |fp| > 2 then None
    else Some(100 * DigitsValue(ip) + Cents(fp))
  }

  /** The hundredths a fraction of one or two digits stands for: '5' is 50, '05' is 5. */
  function Cents(fp: string): nat
    requires AllDigits(fp)
  {
    if |fp| == 1 then 10 * DigitsValue(fp) else DigitsValue(fp)
  }

  /** float(str(x).rstrip('%')), the renderer's reading of a rate text. */
  function ParseRate(s: string): Option<nat>
  {
    ParseHundredths(RStripPercent(s))
  }

  lemma DotSplit(ip: string, fp: string)
    requires AllDigits(ip)
    ensures IndexOfDot(ip + "." + fp) == |ip|
    ensures (ip + "." + fp)[..|ip|] == ip && (ip + "." + fp)[|ip| + 1..] == fp
  {
    var t := ip + "." + fp;
    assert t[|ip|] == '.';
    assert forall i :: 0 <= i < |ip| ==> t[i] == ip[i];
  }

  /** A text of digits, a point and one or two digits reads as its value in hundredths. */
  lemma ParseDotted(ip: string, fp: string)
    requires ip != [] && AllDigits(ip) && AllDigits(fp) && 1 <= |fp| <= 2
    ensures ParseHundredths(ip + "." + fp) == Some(100 * DigitsValue(ip) + Cents(fp))
  {
    DotSplit(ip, fp);
    ParseParts(ip + "." + fp, ip, fp);
  }

  /** ParseHundredths of a text whose first point splits it into `ip` and `fp`. */
  lemma ParseParts(t: string, ip: string, fp: string)
    requires IndexOfDot(t) == |ip| < |t| && t[..|ip|] == ip && t[|ip| + 1..] == fp
    ensures ParseHundredths(t) == Dotted(ip, fp)
  {
  }

  lemma SingleDigit(d: nat)
    requires d < 10
    ensures AllDigits([DigitChar(d)]) && DigitsValue([DigitChar(d)]) == d
  {
    assert [DigitChar(d)][..0] == [];
  }

  /** One trailing '%' after a text that does not end in '%' is all rstrip('%') removes. */
  lemma RStripOne(s: string)
    requires s != [] && s[|s| - 1] != '%'
    ensures RStripPercent(s + "%") == s
  {
    assert (s + "%")[..|s|] == s;
  }

  /** The renderer reads back exactly the rate the query printed. */
  lemma PercentTextRoundTrip(h: nat)
    ensures ParseRate(PercentText(h)) == Some(h)
  {
    var ip, fp := NatToString(h / 100), Pad(2, h % 100);
    var s := ip + "." + fp;
    assert Fixed2(h) == s;
    RStripOne(s);
    ParseDotted(ip, fp);
  }

  /** str(float) of a two-decimal value reads back as the same value. */
  lemma FloatReprRoundTrip(h: nat)
    ensures ParseHundredths(FloatRepr(h)) == Some(h)
  {
    var i, f := h / 100, h % 100;
    var ip := NatToString(i);
    var fp := if f == 0 then [DigitChar(0)] else if f % 10 == 0 then [DigitChar(f / 10)] else Pad(2, f);
    assert FloatRepr(h) == ip + "." + fp by {
      if f == 0 {
        assert ip + ".0" == ip + "." + [DigitChar(0)];
      }
    }
    if f == 0 {
      SingleDigit(0);
    } else if f % 10 == 0 {
      SingleDigit(f / 10);
    }
    FractionReads(i, f, fp);
  }

  /** A whole part, a point and the one or two digits of `f` hundredths read as their value. */
  lemma FractionReads(i: nat, f: nat, fp: string)
    requires AllDigits(fp) && 1 <= |fp| <= 2 && Cents(fp) == f
    ensures ParseHundredths(NatToString(i) + "." + fp) == Some(100 * i + f)
  {
    ParseDotted(NatToString(i), fp);
  }
}
