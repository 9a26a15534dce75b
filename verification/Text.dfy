/** The C library's view of text, as far as the dashboard relies on it: strcmp order, printf's
    decimal conversions, atoi, strndup and strstr. Strings carry no terminating NUL. */
module Text {
  datatype Option<+T> = None | Some(value: T)

  const SIZE_T: nat := 0x1_0000_0000_0000_0000

  /** Conversion of a signed C integer to size_t. */
  function ToSizeT(x: int): nat {
    x % SIZE_T
  }

  /** i + 1 and i - 1 on a size_t, which wrap around. */
  function Next(i: nat): nat {
    (i + 1) % SIZE_T
  }

  function Previous(i: nat): nat {
    (i + SIZE_T - 1) % SIZE_T
  }

  /** Stepping back and forward again stays in place, at zero too. */
  lemma BackAndForth(i: nat)
    requires i < SIZE_T
    ensures Next(Previous(i)) == i && (i + 1 < SIZE_T ==> Next(i) == i + 1)
  {
    assert i > 0 ==> Previous(i) == i - 1;
  }

  /** strcmp(a, b) < 0. */
  predicate Less(a: string, b: string) {
    b != [] && (a == [] || a[0] < b[0] || (a[0] == b[0] && Less(a[1..], b[1..])))
  }

  lemma {:induction false} LessTransitive(a: string, b: string, c: string)
    requires Less(a, b) && Less(b, c)
    ensures Less(a, c)
  {
    if a == [] || a[0] < b[0] || b[0] < c[0] {
    } else {
      LessTransitive(a[1..], b[1..], c[1..]);
    }
  }

  lemma {:induction false} LessTrichotomy(a: string, b: string)
    ensures a != b <==> Less(a, b) || Less(b, a)
    ensures !(Less(a, b) && Less(b, a))
  {
    if a == [] || b == [] {
    } else {
      LessTrichotomy(a[1..], b[1..]);
      assert a == [a[0]] + a[1..] && b == [b[0]] + b[1..];
    }
  }

  /** The order is that of the first difference: there the smaller string has the smaller character, or
      has ended. */
  lemma {:induction false} LessAtFirstDifference(a: string, b: string)
    ensures Less(a, b)
       <==> exists k :: 0 <= k <= |a| && k < |b| && a[..k] == b[..k] && (k == |a| || a[k] < b[k])
  {
    if b == [] || a == [] || a[0] != b[0] {
      assert a[..0] == b[..0];
      assert forall k :: 0 < k <= |a| && k < |b| ==> a[..k][0] == a[0] && b[..k][0] == b[0];
    } else {
      var c, d := a[1..], b[1..];
      LessAtFirstDifference(c, d);
      if k :| 0 <= k <= |c| && k < |d| && c[..k] == d[..k] && (k == |c| || c[k] < d[k]) {
        assert a[..k + 1] == [a[0]] + c[..k] && b[..k + 1] == [b[0]] + d[..k];
      }
      if k :| 0 <= k <= |a| && k < |b| && a[..k] == b[..k] && (k == |a| || a[k] < b[k]) {
        assert k > 0 && a[..k][1..] == c[..k - 1] && b[..k][1..] == d[..k - 1];
      }
    }
  }

  const DIGITS := "0123456789"

  predicate IsDigit(c: char) {
    '0' <= c <= '9'
  }

  function DigitValue(c: char): (v: nat)
    requires IsDigit(c)
    ensures v < 10 && DIGITS[v] == c
  {
    c as int - '0' as int
  }

  /** printf("%u", n). */
  function Decimal(n: nat): (s: string)
    ensures s != [] && forall c :: c in s ==> IsDigit(c)
  {
    if n < 10 then [DIGITS[n]] else Decimal(n / 10) + [DIGITS[n % 10]]
  }

  /** printf("%02u", n). */
  function Decimal2(n: nat): (s: string)
    ensures |s| >= 2 && forall c :: c in s ==> IsDigit(c)
  {
    if n < 10 then "0" + Decimal(n) else Decimal(n)
  }

  predicate IsSpace(c: char) {
    c == ' ' || '\U{0009}' <= c <= '\U{000D}'
  }

  function SkipSpaces(s: string): string {
    if s != [] && IsSpace(s[0]) then SkipSpaces(s[1..]) else s
  }

  /** The number formed by the leading digits of s, continuing from acc. */
  function LeadingNumber(s: string, acc: nat): nat {
    if s == [] || !IsDigit(s[0]) then acc else LeadingNumber(s[1..], 10 * acc + DigitValue(s[0]))
  }

  /** atoi. */
  function Atoi(s: string): int {
    var t := SkipSpaces(s);
    if t != [] && t[0] == '-' then 0 - LeadingNumber(t[1..], 0)
    else if t != [] && t[0] == '+' then LeadingNumber(t[1..], 0)
    else LeadingNumber(t, 0)
  }

  /** strndup(s + offset, count): reading starts at or before the terminator and stops there. */
  function Clip(s: string, offset: nat, count: nat): string
    requires offset <= |s|
  {
    if offset + count <= |s| then s[offset..offset + count] else s[offset..]
  }

  /** strstr(s, pattern), as the position of the first occurrence. */
  function Find(s: string, pattern: string): Option<nat> {
    FindFrom(s, pattern, 0)
  }

  predicate OccursAt(s: string, pattern: string, k: nat) {
    k + |pattern| <= |s| && s[k..k + |pattern|] == pattern
  }

  function FindFrom(s: string, pattern: string, i: nat): (r: Option<nat>)
    requires i <= |s|
    ensures r.Some? ==> i <= r.value && r.value + |pattern| <= |s|
    ensures r.Some? ==> s[r.value..r.value + |pattern|] == pattern
    ensures forall k :: i <= k && (r.None? || k < r.value) ==> !OccursAt(s, pattern, k)
    decreases |s| - i
  {
    if i + |pattern| <= |s| && s[i..i + |pattern|] == pattern then Some(i)
    else if i == |s| then None
    else FindFrom(s, pattern, i + 1)
  }

  lemma {:induction false} OneMoreDigit(s: string, acc: nat, d: nat)
    requires d < 10 && forall c :: c in s ==> IsDigit(c)
    ensures LeadingNumber(s + [DIGITS[d]], acc) == 10 * LeadingNumber(s, acc) + d
  {
    assert IsDigit(DIGITS[d]) && DigitValue(DIGITS[d]) == d;
    if s == [] {
      assert [DIGITS[d]][1..] == [];
      assert LeadingNumber([], 10 * acc + d) == 10 * acc + d;
    } else {
      OneMoreDigit(s[1..], 10 * acc + DigitValue(s[0]), d);
      assert (s + [DIGITS[d]])[1..] == s[1..] + [DIGITS[d]];
    }
  }

  /** Reading stops behind the digits. */
  lemma {:induction false} ReadingStops(digits: string, rest: string, acc: nat)
    requires (forall c :: c in digits ==> IsDigit(c)) && (rest != [] ==> !IsDigit(rest[0]))
    ensures LeadingNumber(digits + rest, acc) == LeadingNumber(digits, acc)
  {
    if digits == [] {
      assert digits + rest == rest;
    } else {
      assert (digits + rest)[1..] == digits[1..] + rest && (digits + rest)[0] == digits[0];
      ReadingStops(digits[1..], rest, 10 * acc + DigitValue(digits[0]));
    }
  }

  /** atoi reads a printed number back, whatever follows it. */
  lemma NumberRead(n: nat, rest: string)
    requires rest != [] ==> !IsDigit(rest[0])
    ensures Atoi(Decimal(n) + rest) == Atoi(Decimal(n)) == n
  {
    ReadingStops(Decimal(n), rest, 0);
    DecimalRead(n);
    assert IsDigit(Decimal(n)[0]) && (Decimal(n) + rest)[0] == Decimal(n)[0];
  }

  /** White space, a sign and digits, up to the first other character. */
  lemma {:induction false} SignedNumberRead(spaces: string, n: nat, rest: string)
    requires (forall c :: c in spaces ==> c == ' ' || c == '\t' || c == '\n') && (rest != [] ==> !IsDigit(rest[0]))
    ensures Atoi(spaces + (Decimal(n) + rest)) == n
    ensures Atoi(spaces + ("-" + (Decimal(n) + rest))) == 0 - n
    ensures Atoi(spaces + ("+" + (Decimal(n) + rest))) == n
  {
    assert IsDigit(Decimal(n)[0]) && (Decimal(n) + rest)[0] == Decimal(n)[0];
    SpacesSkipped(spaces, Decimal(n) + rest);
    SpacesSkipped(spaces, "-" + (Decimal(n) + rest));
    SpacesSkipped(spaces, "+" + (Decimal(n) + rest));
    ReadingStops(Decimal(n), rest, 0);
    DecimalRead(n);
    hide Decimal;
    assert ("-" + (Decimal(n) + rest))[1..] == Decimal(n) + rest;
    assert ("+" + (Decimal(n) + rest))[1..] == Decimal(n) + rest;
  }

  lemma {:induction false} SpacesSkipped(spaces: string, s: string)
    requires (forall c :: c in spaces ==> c == ' ' || c == '\t' || c == '\n') && (s != [] ==> !IsSpace(s[0]))
    ensures SkipSpaces(spaces + s) == s
  {
    if spaces == [] {
      assert spaces + s == s;
    } else {
      assert spaces[0] in spaces && forall c :: c in spaces[1..] ==> c in spaces;
      SpacesSkipped(spaces[1..], s);
      assert (spaces + s)[1..] == spaces[1..] + s && (spaces + s)[0] == spaces[0];
    }
  }

  function Power10(k: nat): (p: nat)
    ensures p > 0
  {
    if k == 0 then 1 else 10 * Power10(k - 1)
  }

  /** Place by place: the digit k places from the right is the one for n / 10^k modulo 10. */
  lemma {:induction false} DecimalPlace(n: nat, k: nat)
    requires k < |Decimal(n)|
    ensures Decimal(n)[|Decimal(n)| - 1 - k] == "0123456789"[n / Power10(k) % 10]
  {
    if k == 0 {
    } else {
      var front := Decimal(n / 10);
      assert Decimal(n) == front + [DIGITS[n % 10]];
      assert Power10(k) == 10 * Power10(k - 1);
      hide Decimal, Power10;
      DecimalPlace(n / 10, k - 1);
      DivideTwice(n, Power10(k - 1));
      assert Decimal(n)[|Decimal(n)| - 1 - k] == front[|front| - 1 - (k - 1)];
    }
  }

  lemma DivideTwice(n: nat, p: nat)
    requires p > 0
    ensures n / 10 / p == n / (10 * p)
  {
    var q, r := n / 10 / p, n / 10 % p;
    assert n / 10 == q * p + r;
    assert n == 10 * (n / 10) + n % 10;
    assert n == q * (10 * p) + (10 * r + n % 10);
    QuotientIs(n, 10 * p, q, 10 * r + n % 10);
  }

  lemma QuotientIs(n: nat, d: nat, q: nat, r: nat)
    requires n == q * d + r && r < d
    ensures n / d == q
  {
    TimesMonotone(n / d + 1, q, d);
    TimesMonotone(q + 1, n / d, d);
    assert n == n / d * d + n % d;
  }

  lemma TimesMonotone(a: int, b: int, d: nat)
    ensures a <= b ==> a * d <= b * d
  {
  }

  lemma {:induction false} DecimalRead(n: nat)
    ensures LeadingNumber(Decimal(n), 0) == n
  {
    if n < 10 {
      OneMoreDigit([], 0, n);
      assert [] + [DIGITS[n]] == [DIGITS[n]];
    } else {
      DecimalRead(n / 10);
      OneMoreDigit(Decimal(n / 10), 0, n % 10);
    }
  }

  /** A printed number is read back, so different numbers are printed differently; below 100 it has two digits. */
  lemma Decimal2RoundTrip(n: nat)
    ensures Atoi(Decimal2(n)) == n && (n < 100 <==> |Decimal2(n)| == 2)
  {
    DecimalRead(n);
    var s := Decimal2(n);
    assert IsDigit(s[0]);
    if n < 10 {
      assert s[1..] == Decimal(n);
    } else {
      DigitCount(n);
    }
  }

  lemma DigitCount(n: nat)
    requires n >= 10
    ensures n < 100 <==> |Decimal(n)| == 2
  {
    if n >= 100 {
      LongNumber(n / 10);
    }
  }

  /** Only the two leading digits of a longer number survive a two-character read. */
  lemma {:induction false} LeadingTwoDigits(n: nat) returns (m: nat)
    requires n >= 10
    ensures 10 <= m < 100 && Decimal(n)[..2] == Decimal2(m)
  {
    if n < 100 {
      m := n;
    } else {
      m := LeadingTwoDigits(n / 10);
      LongNumber(n / 10);
    }
  }

  lemma LongNumber(n: nat)
    requires n >= 10
    ensures |Decimal(n)| >= 2
  {
  }

  /** What a two-character read makes of a printed number. */
  function TwoDigits(n: nat): nat {
    ToSizeT(Atoi(Decimal2(n)[..2]))
  }

  /** The two-character read gives the printed number back exactly for numbers below 100; a larger one
      loses all but its two leading digits. */
  lemma TwoCharacterRead(n: nat)
    ensures TwoDigits(n) == n <==> n < 100
    ensures n >= 100 ==> 10 <= TwoDigits(n) < 100
  {
    if n < 100 {
      Decimal2RoundTrip(n);
      SmallNumber(n);
      assert Decimal2(n)[..2] == Decimal2(n);
      hide Decimal2, Atoi, ToSizeT;
    } else {
      var m := LeadingTwoDigits(n);
      Decimal2RoundTrip(m);
      SmallNumber(m);
      assert Decimal2(n)[..2] == Decimal2(m);
      hide Decimal2, Atoi, ToSizeT;
    }
  }

  lemma SmallNumber(n: nat)
    requires n < 100
    ensures ToSizeT(n) == n
  {
  }
}
