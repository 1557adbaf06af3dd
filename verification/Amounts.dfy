/**
 Decimal amounts as internal/binancepay/webhook.go compares them: both sides are
 parsed to exact rationals, and a side that does not parse makes the comparison false.
 */
module Amounts {
  import opened Basics

  /** A parsed decimal: a sign, the digits before the point and the digits after it. */
  datatype Decimal = Decimal(negative: bool, whole: string, fraction: string)

  predicate Digit(c: char) {
    '0' <= c <= '9'
  }

  predicate Digits(s: string) {
    forall i :: 0 <= i < |s| ==> Digit(s[i])
  }

  predicate Space(c: char) {
    c == ' ' || '\t' <= c <= '\r'
  }

  function TrimLeft(s: string): string {
    if s != "" && Space(s[0]) then TrimLeft(s[1..]) else s
  }

  function TrimRight(s: string): string {
    if s != "" && Space(s[|s| - 1]) then TrimRight(s[..|s| - 1]) else s
  }

  function TrimSpace(s: string): string {
    TrimRight(TrimLeft(s))
  }

  /** The digits up to the first character that is not one. */
  function Span(s: string): (n: nat)
    ensures n <= |s| && Digits(s[..n])
    ensures n < |s| ==> !Digit(s[n])
  {
    if s != "" && Digit(s[0]) then
      var m := Span(s[1..]);
      assert s[..1 + m] == [s[0]] + s[1..][..m];
      1 + m
    else 0
  }

  function ParseUnsigned(negative: bool, s: string): Option<Decimal> {
    var n := Span(s);
    var whole, rest := s[..n], s[n..];
    if rest == "" then
      if whole == "" then None else Some(Decimal(negative, whole, ""))
    else if rest[0] == '.' && Span(rest[1..]) == |rest| - 1 && whole + rest[1..] != "" then
      Some(Decimal(negative, whole, rest[1..]))
    else None
  }

  /** An optional sign, digits, and an optional point with digits; at least one digit in all. */
  function Parse(text: string): Option<Decimal> {
    ParseSigned(TrimSpace(text))
  }

  function ParseSigned(s: string): Option<Decimal> {
    if s != "" && s[0] == '-' then ParseUnsigned(true, s[1..])
    else if s != "" && s[0] == '+' then ParseUnsigned(false, s[1..])
    else ParseUnsigned(false, s)
  }

  predicate WellFormed(d: Decimal) {
    Digits(d.whole) && Digits(d.fraction)
  }

  lemma ParsesToDigits(text: string)
    ensures Parse(text).Some? ==> WellFormed(Parse(text).value)
  {
    var s := TrimSpace(text);
    var body := if s != "" && (s[0] == '-' || s[0] == '+') then s[1..] else s;
    var n := Span(body);
    var rest := body[n..];
    if rest != "" && Span(rest[1..]) == |rest| - 1 {
      assert rest[1..][..Span(rest[1..])] == rest[1..];
    }
  }

  function Pow10(n: nat): (p: nat)
    ensures p >= 1
  {
    if n == 0 then 1 else 10 * Pow10(n - 1)
  }

  function DigitValue(c: char): nat
    requires Digit(c)
  {
    c as int - '0' as int
  }

  function Value(s: string): nat
    requires Digits(s)
  {
    if s == "" then 0 else 10 * Value(s[..|s| - 1]) + DigitValue(s[|s| - 1])
  }

  function Magnitude(d: Decimal): nat
    requires WellFormed(d)
  {
    Value(d.whole) * Pow10(|d.fraction|) + Value(d.fraction)
  }

  /** The numerator over the denominator Pow10(|fraction|). */
  function Numerator(d: Decimal): int
    requires WellFormed(d)
  {
    if d.negative then -(Magnitude(d) as int) else Magnitude(d)
  }

  /** Equality of the two rationals, by cross-multiplication. */
  predicate SameRational(a: Decimal, b: Decimal)
    requires WellFormed(a) && WellFormed(b)
  {
    Numerator(a) * Pow10(|b.fraction|) == Numerator(b) * Pow10(|a.fraction|)
  }

  predicate AmountsEqual(left: string, right: string) {
    ParsesToDigits(left);
    ParsesToDigits(right);
    var a, b := Parse(left), Parse(right);
    a.Some? && b.Some? && SameRational(a.value, b.value)
  }

  // ---- Canonical forms -------------------------------------------------------------

  function StripLeading(s: string): string {
    if s != "" && s[0] == '0' then StripLeading(s[1..]) else s
  }

  function StripTrailing(s: string): string {
    if s != "" && s[|s| - 1] == '0' then StripTrailing(s[..|s| - 1]) else s
  }

  /** No leading zeros, no trailing zeros, and no sign on zero. */
  function Canonical(d: Decimal): Decimal {
    var whole, fraction := StripLeading(d.whole), StripTrailing(d.fraction);
    Decimal(d.negative && whole + fraction != "", whole, fraction)
  }

  lemma {:induction false} Pow10Adds(m: nat, n: nat)
    ensures Pow10(m + n) == Pow10(m) * Pow10(n)
  {
    if m > 0 {
      Pow10Adds(m - 1, n);
    }
  }

  lemma {:induction false} ValueBelow(s: string)
    requires Digits(s)
    ensures Value(s) < Pow10(|s|)
  {
    if s != "" {
      ValueBelow(s[..|s| - 1]);
    }
  }

  lemma ScaleByTen(v: int, p: int)
    ensures 10 * (v * p) == v * (10 * p)
  {
  }

  lemma AppendDigit(d: int, p: int, v: int, last: int)
    ensures 10 * (d * p + v) + last == d * (10 * p) + (10 * v + last)
  {
    ScaleByTen(d, p);
  }

  lemma {:induction false} ValuePrepend(c: char, s: string)
    requires Digit(c) && Digits(s)
    ensures Digits([c] + s)
    ensures Value([c] + s) == DigitValue(c) * Pow10(|s|) + Value(s)
  {
    var t := [c] + s;
    if s == "" {
      assert t[..0] == "";
    } else {
      var init := s[..|s| - 1];
      ValuePrepend(c, init);
      assert t[..|t| - 1] == [c] + init;
      AppendDigit(DigitValue(c), Pow10(|init|), Value(init), DigitValue(s[|s| - 1]));
    }
  }

  lemma {:induction false} StripLeadingKeepsValue(s: string)
    requires Digits(s)
    ensures Digits(StripLeading(s)) && Value(StripLeading(s)) == Value(s)
    ensures StripLeading(s) != "" ==> StripLeading(s)[0] != '0'
    decreases |s|
  {
    if s != "" && s[0] == '0' {
      StripLeadingKeepsValue(s[1..]);
      ValuePrepend('0', s[1..]);
      assert s == ['0'] + s[1..];
    }
  }

  lemma {:induction false} StripTrailingScalesValue(s: string)
    requires Digits(s)
    ensures Digits(StripTrailing(s)) && |StripTrailing(s)| <= |s|
    ensures Value(s) == Value(StripTrailing(s)) * Pow10(|s| - |StripTrailing(s)|)
    ensures StripTrailing(s) != "" ==> StripTrailing(s)[|StripTrailing(s)| - 1] != '0'
    decreases |s|
  {
    if s != "" && s[|s| - 1] == '0' {
      var init := s[..|s| - 1];
      StripTrailingScalesValue(init);
      ScaleByTen(Value(StripTrailing(init)), Pow10(|init| - |StripTrailing(init)|));
    }
  }

  /** Digit strings of one length are determined by their value. */
  lemma {:induction false} SameLengthSameValue(a: string, b: string)
    requires Digits(a) && Digits(b) && |a| == |b| && Value(a) == Value(b)
    ensures a == b
  {
    if a != "" {
      var n := |a| - 1;
      SameLengthSameValue(a[..n], b[..n]);
      assert a == a[..n] + [a[n]] && b == b[..n] + [b[n]];
    }
  }

  lemma {:induction false} LeadingDigitBounds(s: string)
    requires Digits(s) && s != "" && s[0] != '0'
    ensures Pow10(|s| - 1) <= Value(s) < Pow10(|s|)
  {
    ValueBelow(s);
    if |s| > 1 {
      LeadingDigitBounds(s[..|s| - 1]);
    } else {
      assert s[..0] == "";
    }
  }

  lemma {:induction false} Pow10Monotone(m: nat, n: nat)
    requires m <= n
    ensures Pow10(m) <= Pow10(n)
    decreases n
  {
    if m < n {
      Pow10Monotone(m, n - 1);
    }
  }

  /** Without leading zeros the value determines the digits. */
  lemma StrippedWholeUnique(a: string, b: string)
    requires Digits(a) && Digits(b) && Value(a) == Value(b)
    requires a != "" ==> a[0] != '0'
    requires b != "" ==> b[0] != '0'
    ensures a == b
  {
    if a != "" { LeadingDigitBounds(a); }
    if b != "" { LeadingDigitBounds(b); }
    if |a| < |b| {
      Pow10Monotone(|a|, |b| - 1);
      assert false;
    } else if |b| < |a| {
      Pow10Monotone(|b|, |a| - 1);
      assert false;
    }
    SameLengthSameValue(a, b);
  }

  lemma MulCancel(x: int, y: int, n: int)
    requires n >= 1 && x * n == y * n
    ensures x == y
  {
  }

  lemma MulAssociates(x: int, y: int, z: int)
    ensures (x * y) * z == x * (y * z)
  {
  }

  lemma MulSwaps(x: int, y: int, z: int)
    ensures (x * y) * z == (x * z) * y
  {
    MulAssociates(x, y, z);
    MulAssociates(x, z, y);
  }

  lemma MulDistributes(x: int, y: int, n: int)
    ensures (x + y) * n == x * n + y * n
    ensures (x - y) * n == x * n - y * n
    ensures (-x) * n == -(x * n)
  {
  }

  lemma MulAtLeast(x: int, n: int)
    requires x >= 1 && n >= 1
    ensures x * n >= n
  {
  }

  /** Quotient and remainder by n are unique. */
  lemma DivisionUnique(q: int, r: int, q': int, r': int, n: int)
    requires 0 <= r < n && 0 <= r' < n && q * n + r == q' * n + r'
    ensures q == q' && r == r'
  {
    MulDistributes(q, q', n);
    MulDistributes(q', q, n);
    if q > q' {
      MulAtLeast(q - q', n);
    } else if q < q' {
      MulAtLeast(q' - q, n);
    }
  }

  lemma ScaleSum(w: int, f: int, p: int, q: int)
    ensures (w * p + f) * q == w * (p * q) + f * q
  {
    MulAssociates(w, p, q);
    MulDistributes(w * p, f, q);
  }

  lemma MagnitudeScales(d: Decimal)
    requires WellFormed(d)
    ensures WellFormed(Canonical(d)) && |Canonical(d).fraction| <= |d.fraction|
    ensures Magnitude(d) == Magnitude(Canonical(d)) * Pow10(|d.fraction| - |Canonical(d).fraction|)
    ensures Canonical(d).negative == (d.negative && Magnitude(Canonical(d)) != 0)
  {
    StripLeadingKeepsValue(d.whole);
    StripTrailingScalesValue(d.fraction);
    var c := Canonical(d);
    var k := |d.fraction| - |c.fraction|;
    Pow10Adds(|c.fraction|, k);
    ScaleSum(Value(c.whole), Value(c.fraction), Pow10(|c.fraction|), Pow10(k));
    if c.whole + c.fraction != "" {
      CanonicalMagnitudePositive(c);
    }
  }

  /** A decimal and its canonical form are the same rational. */
  lemma CanonicalSameRational(d: Decimal)
    requires WellFormed(d)
    ensures WellFormed(Canonical(d)) && SameRational(d, Canonical(d))
  {
    MagnitudeScales(d);
    var c := Canonical(d);
    var k := |d.fraction| - |c.fraction|;
    Pow10Adds(k, |c.fraction|);
    var m, p, q := Magnitude(c), Pow10(k), Pow10(|c.fraction|);
    MulAssociates(m, p, q);
    MulDistributes(m, 0, p * q);
    MulDistributes(m * p, 0, q);
  }

  lemma CrossTransitive(x: int, y: int, z: int, p: int, q: int, r: int)
    requires q >= 1 && x * q == y * p && y * r == z * q
    ensures x * r == z * p
  {
    MulSwaps(x, r, q);
    MulSwaps(y, p, r);
    MulSwaps(z, q, p);
    MulCancel(x * r, z * p, q);
  }

  lemma SameRationalTransitive(a: Decimal, b: Decimal, c: Decimal)
    requires WellFormed(a) && WellFormed(b) && WellFormed(c)
    requires SameRational(a, b) && SameRational(b, c)
    ensures SameRational(a, c)
  {
    CrossTransitive(Numerator(a), Numerator(b), Numerator(c),
                    Pow10(|a.fraction|), Pow10(|b.fraction|), Pow10(|c.fraction|));
  }

  /** Aligning two decimals of one magnitude: equal whole parts, and fractions equal once padded. */
  lemma Align(w: nat, f: nat, w': nat, f': nat, p: nat, q: nat)
    requires p >= 1 && q >= 1 && f < p && f' < p * q
    requires (w * p + f) * (p * q) == (w' * (p * q) + f') * p
    ensures w == w' && f * q == f'
  {
    MulAssociates(w * p + f, p, q);
    MulSwaps(w * p + f, p, q);
    MulCancel((w * p + f) * q, w' * (p * q) + f', p);
    MulDistributes(w * p, f, q);
    MulAssociates(w, p, q);
    MulDistributes(p, f, q);
    MulAtLeast(p - f, q);
    DivisionUnique(w, f * q, w', f', p * q);
  }

  predicate Stripped(d: Decimal) {
    && (d.whole != "" ==> d.whole[0] != '0')
    && (d.fraction != "" ==> d.fraction[|d.fraction| - 1] != '0')
  }

  /** Stripped decimals of one magnitude have the same digits. */
  lemma StrippedDigitsUnique(a: Decimal, b: Decimal)
    requires WellFormed(a) && WellFormed(b) && |a.fraction| <= |b.fraction|
    requires Stripped(a) && Stripped(b)
    requires Magnitude(a) * Pow10(|b.fraction|) == Magnitude(b) * Pow10(|a.fraction|)
    ensures a.whole == b.whole && a.fraction == b.fraction
  {
    var k := |b.fraction| - |a.fraction|;
    Pow10Adds(|a.fraction|, k);
    ValueBelow(a.fraction);
    ValueBelow(b.fraction);
    Align(Value(a.whole), Value(a.fraction), Value(b.whole), Value(b.fraction), Pow10(|a.fraction|), Pow10(k));
    StrippedWholeUnique(a.whole, b.whole);
    if k > 0 {
      NotAMultipleOfTen(Value(a.fraction), Pow10(k - 1), b.fraction);
    }
    SameLengthSameValue(a.fraction, b.fraction);
  }

  lemma NotAMultipleOfTen(f: nat, p: nat, s: string)
    requires Digits(s) && s != "" && s[|s| - 1] != '0'
    ensures f * (10 * p) != Value(s)
  {
    MulAssociates(f, p, 10);
    assert Value(s) % 10 == DigitValue(s[|s| - 1]);
  }

  lemma CanonicalMagnitudePositive(c: Decimal)
    requires WellFormed(c) && c.whole + c.fraction != "" && Stripped(c)
    ensures Magnitude(c) > 0
  {
    if c.whole != "" {
      LeadingDigitBounds(c.whole);
      MulAtLeast(Value(c.whole), Pow10(|c.fraction|));
    } else {
      assert DigitValue(c.fraction[|c.fraction| - 1]) > 0;
    }
  }

  lemma SignsAndMagnitudes(s: bool, m: int, q: int, t: bool, n: int, p: int)
    requires m >= 0 && n >= 0 && p >= 1 && q >= 1
    requires (if s then -m else m) * q == (if t then -n else n) * p
    ensures m * q == n * p
    ensures m > 0 ==> s == t
  {
    MulDistributes(m, 0, q);
    MulDistributes(n, 0, p);
    if m > 0 { MulAtLeast(m, q); }
    if n > 0 { MulAtLeast(n, p); }
  }

  /** On canonical decimals, denoting one rational is being one decimal. */
  lemma CanonicalUnique(d: Decimal, e: Decimal)
    requires WellFormed(d) && WellFormed(e)
    requires WellFormed(Canonical(d)) && WellFormed(Canonical(e))
    requires SameRational(Canonical(d), Canonical(e))
    ensures Canonical(d) == Canonical(e)
  {
    var a, b := Canonical(d), Canonical(e);
    StripLeadingKeepsValue(d.whole);
    StripLeadingKeepsValue(e.whole);
    StripTrailingScalesValue(d.fraction);
    StripTrailingScalesValue(e.fraction);
    MagnitudeScales(d);
    MagnitudeScales(e);
    SignsAndMagnitudes(a.negative, Magnitude(a), Pow10(|b.fraction|), b.negative, Magnitude(b), Pow10(|a.fraction|));
    if |a.fraction| <= |b.fraction| {
      StrippedDigitsUnique(a, b);
    } else {
      StrippedDigitsUnique(b, a);
    }
  }

  /** AmountsEqual coincides with equality of canonical forms, on all inputs. */
  lemma EqualIffSameCanonicalForm(left: string, right: string)
    ensures AmountsEqual(left, right) <==>
              Parse(left).Some? && Parse(right).Some? &&
              Canonical(Parse(left).value) == Canonical(Parse(right).value)
  {
    if Parse(left).Some? && Parse(right).Some? {
      ParsesToDigits(left);
      ParsesToDigits(right);
      var a, b := Parse(left).value, Parse(right).value;
      CanonicalSameRational(a);
      CanonicalSameRational(b);
      var c, d := Canonical(a), Canonical(b);
      if SameRational(a, b) {
        SameRationalTransitive(c, a, b);
        SameRationalTransitive(c, b, d);
        CanonicalUnique(a, b);
      }
      if c == d {
        SameRationalTransitive(a, c, b);
      }
    }
  }

  /** A partial equivalence: reflexive exactly on the inputs that parse. */
  lemma PartialEquivalence(a: string, b: string, c: string)
    ensures AmountsEqual(a, a) <==> Parse(a).Some?
    ensures AmountsEqual(a, b) ==> AmountsEqual(b, a)
    ensures AmountsEqual(a, b) && AmountsEqual(b, c) ==> AmountsEqual(a, c)
  {
    EqualIffSameCanonicalForm(a, a);
    EqualIffSameCanonicalForm(a, b);
    EqualIffSameCanonicalForm(b, a);
    EqualIffSameCanonicalForm(b, c);
    EqualIffSameCanonicalForm(a, c);
  }

  // ---- Which texts are amounts -------------------------------------------------------------

  /** A decimal as written: blanks around a sign, digits, and maybe a point with more digits. */
  datatype Spelling = Spelling(before: string, sign: string, whole: string, point: bool, fraction: string,
    after: string)

  predicate Blank(s: string) {
    forall i :: 0 <= i < |s| ==> s[i] as int in {9, 10, 11, 12, 13, 32}
  }

  predicate Spelled(p: Spelling) {
    && Blank(p.before) && Blank(p.after) && p.sign in {"", "+", "-"}
    && Digits(p.whole) && Digits(p.fraction) && p.whole + p.fraction != "" && (!p.point ==> p.fraction == "")
  }

  /** The digits, with the point if there is one. */
  function Numeral(p: Spelling): string {
    p.whole + (if p.point then "." + p.fraction else "")
  }

  function Written(p: Spelling): string {
    p.before + (p.sign + Numeral(p)) + p.after
  }

  lemma {:induction false} TrimLeftDrops(pad: string, body: string)
    requires Blank(pad) && (body != "" ==> !Space(body[0]))
    ensures TrimLeft(pad + body) == body
    decreases |pad|
  {
    if pad == "" {
      assert pad + body == body;
    } else {
      assert (pad + body)[0] == pad[0] && (pad + body)[1..] == pad[1..] + body;
      TrimLeftDrops(pad[1..], body);
    }
  }

  lemma {:induction false} TrimRightDrops(body: string, pad: string)
    requires Blank(pad) && (body != "" ==> !Space(body[|body| - 1]))
    ensures TrimRight(body + pad) == body
    decreases |pad|
  {
    if pad == "" {
      assert body + pad == body;
    } else {
      var all := body + pad;
      assert all[|all| - 1] == pad[|pad| - 1] && all[..|all| - 1] == body + pad[..|pad| - 1];
      TrimRightDrops(body, pad[..|pad| - 1]);
    }
  }

  lemma TrimDrops(before: string, body: string, after: string)
    requires Blank(before) && Blank(after) && body != "" && !Space(body[0]) && !Space(body[|body| - 1])
    ensures TrimSpace(before + body + after) == body
  {
    assert before + body + after == before + (body + after);
    assert (body + after)[0] == body[0];
    TrimLeftDrops(before, body + after);
    TrimRightDrops(body, after);
  }

  lemma {:induction false} SpanOfDigits(s: string, rest: string)
    requires Digits(s) && (rest != "" ==> !Digit(rest[0]))
    ensures Span(s + rest) == |s|
    decreases |s|
  {
    if s == "" {
      assert s + rest == rest;
    } else {
      assert (s + rest)[0] == s[0] && (s + rest)[1..] == s[1..] + rest;
      SpanOfDigits(s[1..], rest);
    }
  }

  lemma NumeralParses(p: Spelling, negative: bool)
    requires Spelled(p)
    ensures ParseUnsigned(negative, Numeral(p)) == Some(Decimal(negative, p.whole, p.fraction))
  {
    var tail := if p.point then "." + p.fraction else "";
    var s := p.whole + tail;
    SpanOfDigits(p.whole, tail);
    assert s[..|p.whole|] == p.whole && s[|p.whole|..] == tail;
    if p.point {
      assert tail[1..] == p.fraction;
      SpanOfDigits(p.fraction, "");
      assert p.fraction + "" == p.fraction;
    }
  }

  lemma NumeralEnds(p: Spelling)
    requires Spelled(p)
    ensures var s := p.sign + Numeral(p); s != "" && !Space(s[0]) && !Space(s[|s| - 1])
    ensures Numeral(p) != "" && Numeral(p)[0] != '+' && Numeral(p)[0] != '-'
  {
    var n := Numeral(p);
    if p.whole != "" {
      assert n[0] == p.whole[0];
    }
    if p.fraction != "" {
      assert n[|n| - 1] == p.fraction[|p.fraction| - 1];
    } else if !p.point {
      assert n[|n| - 1] == p.whole[|p.whole| - 1];
    }
    assert (p.sign + n)[|p.sign + n| - 1] == n[|n| - 1];
  }

  /** Every such text parses to its own sign, whole digits and fraction digits. */
  lemma ParsesAsWritten(p: Spelling)
    requires Spelled(p)
    ensures Parse(Written(p)) == Some(Decimal(p.sign == "-", p.whole, p.fraction))
  {
    NumeralEnds(p);
    TrimDrops(p.before, p.sign + Numeral(p), p.after);
    SignedParses(p);
  }

  lemma SignedParses(p: Spelling)
    requires Spelled(p)
    ensures ParseSigned(p.sign + Numeral(p)) == Some(Decimal(p.sign == "-", p.whole, p.fraction))
  {
    var n := Numeral(p);
    NumeralEnds(p);
    if p.sign == "" {
      assert p.sign + n == n;
      NumeralParses(p, false);
    } else {
      assert (p.sign + n)[0] == p.sign[0] && (p.sign + n)[1..] == n;
      NumeralParses(p, p.sign == "-");
    }
  }

  lemma {:induction false} TrimLeftKeeps(s: string) returns (n: nat)
    ensures n <= |s| && Blank(s[..n]) && TrimLeft(s) == s[n..]
    decreases |s|
  {
    n := 0;
    if s != "" && Space(s[0]) {
      var m := TrimLeftKeeps(s[1..]);
      n := m + 1;
      assert s[1..][..m] == s[1..n] && s[1..][m..] == s[n..];
      assert forall i :: 1 <= i < n ==> s[..n][i] == s[1..n][i - 1];
    }
  }

  lemma {:induction false} TrimRightKeeps(s: string) returns (n: nat)
    ensures n <= |s| && Blank(s[n..]) && TrimRight(s) == s[..n]
    decreases |s|
  {
    n := |s|;
    if s != "" && Space(s[|s| - 1]) {
      n := TrimRightKeeps(s[..|s| - 1]);
      assert s[..|s| - 1][n..] == s[n..|s| - 1] && s[..|s| - 1][..n] == s[..n];
      assert forall i :: 0 <= i < |s| - 1 - n ==> s[n..][i] == s[n..|s| - 1][i];
    }
  }

  lemma NumeralOnly(s: string, negative: bool) returns (p: Spelling)
    requires ParseUnsigned(negative, s).Some?
    ensures Spelled(p) && Numeral(p) == s && p.before == p.after == p.sign == ""
  {
    var n := Span(s);
    var whole, rest := s[..n], s[n..];
    assert s == whole + rest;
    if rest == "" {
      p := Spelling("", "", whole, false, "", "");
    } else {
      p := Spelling("", "", whole, true, rest[1..], "");
      assert rest == "." + rest[1..];
      assert Digits(rest[1..]) by {
        assert rest[1..][..Span(rest[1..])] == rest[1..];
      }
    }
  }

  /** No other text parses. */
  lemma ParsesOnlySpellings(text: string) returns (p: Spelling)
    requires Parse(text).Some?
    ensures Spelled(p) && text == Written(p)
  {
    var left := TrimLeftKeeps(text);
    var right := TrimRightKeeps(text[left..]);
    var s := text[left..][..right];
    p := SignedOnly(s);
    p := p.(before := text[..left], after := text[left..][right..]);
    assert text == text[..left] + s + text[left..][right..];
  }

  lemma SignedOnly(s: string) returns (p: Spelling)
    requires ParseSigned(s).Some?
    ensures Spelled(p) && p.sign + Numeral(p) == s && p.before == p.after == ""
  {
    if s != "" && (s[0] == '-' || s[0] == '+') {
      p := NumeralOnly(s[1..], s[0] == '-');
      p := p.(sign := [s[0]]);
      assert s == [s[0]] + s[1..];
    } else {
      p := NumeralOnly(s, false);
      assert "" + s == s;
    }
  }

  /** Parsing succeeds exactly on the texts that spell a decimal. */
  lemma ParsesExactly(text: string)
    ensures Parse(text).Some? <==> exists p :: Spelled(p) && text == Written(p)
  {
    if Parse(text).Some? {
      var p := ParsesOnlySpellings(text);
    }
    if p :| Spelled(p) && text == Written(p) {
      ParsesAsWritten(p);
    }
  }

  /**
   Amounts are equal exactly when they differ in blanks, a plus sign, leading zeros of the whole part,
   trailing zeros of the fraction and the sign of zero only.
   */
  lemma SpelledEqualExactly(p: Spelling, q: Spelling)
    requires Spelled(p) && Spelled(q)
    ensures AmountsEqual(Written(p), Written(q)) <==>
              && StripLeading(p.whole) == StripLeading(q.whole)
              && StripTrailing(p.fraction) == StripTrailing(q.fraction)
              && ((p.sign == "-" <==> q.sign == "-") || StripLeading(p.whole) + StripTrailing(p.fraction) == "")
  {
    ParsesAsWritten(p);
    ParsesAsWritten(q);
    EqualIffSameCanonicalForm(Written(p), Written(q));
  }

  /** The zeros at the ends are all that is stripped. */
  lemma StripsZeros(s: string)
    ensures exists n: nat :: n <= |s| && StripLeading(s) == s[n..] && forall i :: 0 <= i < n ==> s[i] == '0'
    ensures exists n: nat :: n <= |s| && StripTrailing(s) == s[..n] && forall i :: n <= i < |s| ==> s[i] == '0'
    ensures StripLeading(s) == "" || StripLeading(s)[0] != '0'
    ensures StripTrailing(s) == "" || StripTrailing(s)[|StripTrailing(s)| - 1] != '0'
  {
    var n := StripsLeading(s);
    var m := StripsTrailing(s);
  }

  lemma {:induction false} StripsLeading(s: string) returns (n: nat)
    ensures n <= |s| && StripLeading(s) == s[n..] && forall i :: 0 <= i < n ==> s[i] == '0'
    ensures n < |s| ==> s[n] != '0'
    decreases |s|
  {
    if s != "" && s[0] == '0' {
      var m := StripsLeading(s[1..]);
      n := m + 1;
    } else {
      n := 0;
    }
  }

  lemma {:induction false} StripsTrailing(s: string) returns (n: nat)
    ensures n <= |s| && StripTrailing(s) == s[..n] && forall i :: n <= i < |s| ==> s[i] == '0'
    ensures n > 0 ==> s[n - 1] != '0'
    decreases |s|
  {
    if s != "" && s[|s| - 1] == '0' {
      n := StripsTrailing(s[..|s| - 1]);
    } else {
      n := |s|;
    }
  }

  /** A trailing zero changes nothing; a different whole part, in value, always does. */
  lemma WholePartsTell(p: Spelling, q: Spelling)
    requires Spelled(p) && Spelled(q)
    ensures p.point ==> AmountsEqual(Written(p), Written(p.(fraction := p.fraction + "0")))
    ensures AmountsEqual(Written(p), Written(q)) ==> Value(p.whole) == Value(q.whole)
  {
    if p.point {
      SpelledEqualExactly(p, p.(fraction := p.fraction + "0"));
      assert (p.fraction + "0")[..|p.fraction|] == p.fraction;
    }
    SpelledEqualExactly(p, q);
    StripLeadingKeepsValue(p.whole);
    StripLeadingKeepsValue(q.whole);
  }
}
