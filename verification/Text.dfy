/** Text the program builds and cuts: decimal numbers, "<prefix>-<number>"
    identifiers, and the trimming of request fields. */
module Text {

  function Digit(d: nat): char
    requires d < 10
  {
    ('0' as int + d) as char
  }

  function Digits(n: nat): string {
    if n < 10 then [Digit(n)] else Digits(n / 10) + [Digit(n % 10)]
  }

  /** strconv.FormatInt(n, 10) and the %d verb. */
  function Decimal(n: int): string {
    if n < 0 then "-" + Digits(-n) else Digits(n)
  }

  predicate DigitsOnly(s: string) {
    forall k :: 0 <= k < |s| ==> '0' <= s[k] <= '9'
  }

  lemma {:induction false} DigitsAreDigits(n: nat)
    ensures DigitsOnly(Digits(n)) && Digits(n) != []
  {
    if n >= 10 { DigitsAreDigits(n / 10); }
  }

  lemma {:induction false} DigitsInjective(m: nat, n: nat)
    requires Digits(m) == Digits(n)
    ensures m == n
  {
    DigitsAreDigits(m / 10);
    DigitsAreDigits(n / 10);
    var s := Digits(m);
    if m >= 10 && n >= 10 {
      assert s[..|s| - 1] == Digits(m / 10) == Digits(n / 10);
      DigitsInjective(m / 10, n / 10);
    }
    assert s[|s| - 1] == Digit(m % 10) == Digit(n % 10);
  }

  /** The number that a string of decimal digits denotes. */
  function Value(s: string): int {
    if s == [] then 0 else 10 * Value(s[..|s| - 1]) + (s[|s| - 1] as int - '0' as int)
  }

  /** The digits of a number denote it, and do not start with a needless zero. */
  lemma {:induction false} DigitsDenote(n: nat)
    ensures Value(Digits(n)) == n
    ensures Digits(n)[0] == '0' ==> n == 0 && Digits(n) == "0"
  {
    var s := Digits(n);
    if n < 10 {
      assert Value(s[..0]) == 0;
    } else {
      DigitsDenote(n / 10);
      assert s[..|s| - 1] == Digits(n / 10);
      assert s[0] == Digits(n / 10)[0];
    }
  }

  lemma DecimalHasNoColon(n: int)
    ensures ':' !in Decimal(n)
  {
    DigitsAreDigits(if n < 0 then -n else n);
  }

  /** fmt.Sprintf("%s-%d", prefix, n): the form of spike ids and of websocket client ids. */
  function Tagged(prefix: string, n: int): string {
    prefix + "-" + Decimal(n)
  }

  /** Where the last hyphen of s stands; |s| when there is none. */
  function LastHyphen(s: string): (k: nat)
    ensures k <= |s|
  {
    if s == [] then 0
    else if s[|s| - 1] == '-' then |s| - 1
    else var k := LastHyphen(s[..|s| - 1]); if k == |s| - 1 then |s| else k
  }

  lemma {:induction false} LastHyphenBeforeDigits(a: string, d: string)
    requires DigitsOnly(d)
    ensures LastHyphen(a + "-" + d) == |a|
  {
    if d == [] {
      assert a + "-" + d == a + "-";
    } else {
      var s := a + "-" + d;
      assert s[..|s| - 1] == a + "-" + d[..|d| - 1];
      LastHyphenBeforeDigits(a, d[..|d| - 1]);
    }
  }

  /** The prefix of a tagged name as its last hyphen shows it: the sign of a negative
      number stays with the prefix. */
  function Stem(p: string, n: int): string {
    if n < 0 then p + "-" else p
  }

  function Abs(n: int): nat {
    if n < 0 then -n else n
  }

  lemma TaggedByStem(p: string, n: int)
    ensures Tagged(p, n) == Stem(p, n) + "-" + Digits(Abs(n))
  {
  }

  lemma StemsSplit(a: string, d: string, b: string, e: string)
    requires DigitsOnly(d) && DigitsOnly(e)
    requires a + "-" + d == b + "-" + e
    ensures a == b && d == e
  {
    LastHyphenBeforeDigits(a, d);
    LastHyphenBeforeDigits(b, e);
    assert a == (a + "-" + d)[..|a|] && b == (b + "-" + e)[..|b|];
    assert d == (a + "-" + d)[|a| + 1..] && e == (b + "-" + e)[|b| + 1..];
  }

  /** Exactly when two tagged names collide: never for two non-negative numbers, even
      when a prefix contains hyphens; a negative number can collide, because its sign
      can also be read as the end of the prefix. */
  lemma TaggedCollision(p: string, m: int, q: string, n: int)
    ensures Tagged(p, m) == Tagged(q, n) <==> Stem(p, m) == Stem(q, n) && Abs(m) == Abs(n)
    ensures 0 <= m && 0 <= n ==> (Tagged(p, m) == Tagged(q, n) <==> p == q && m == n)
  {
    TaggedByStem(p, m);
    TaggedByStem(q, n);
    DigitsAreDigits(Abs(m));
    DigitsAreDigits(Abs(n));
    if Tagged(p, m) == Tagged(q, n) {
      StemsSplit(Stem(p, m), Digits(Abs(m)), Stem(q, n), Digits(Abs(n)));
      DigitsInjective(Abs(m), Abs(n));
    }
  }

  /** Two different (name, number) pairs share a tagged name when one number is the
      other's negative and the prefix of the positive one ends in the extra hyphen. */
  lemma NegativeNumbersCollide(p: string, n: int)
    requires 0 < n
    ensures Tagged(p, -n) == Tagged(p + "-", n)
  {
    TaggedCollision(p, -n, p + "-", n);
  }

  /** unicode.IsSpace. */
  predicate IsSpace(c: char) {
    var u := c as int;
    || 0x09 <= u <= 0x0D || u == 0x20 || u == 0x85 || u == 0xA0 || u == 0x1680
    || 0x2000 <= u <= 0x200A || u == 0x2028 || u == 0x2029 || u == 0x202F || u == 0x205F || u == 0x3000
  }

  function TrimLeft(s: string): string {
    if s != [] && IsSpace(s[0]) then TrimLeft(s[1..]) else s
  }

  function TrimRight(s: string): string {
    if s != [] && IsSpace(s[|s| - 1]) then TrimRight(s[..|s| - 1]) else s
  }

  /** strings.TrimSpace. */
  function TrimSpace(s: string): string {
    TrimRight(TrimLeft(s))
  }

  lemma {:induction false} TrimLeftEdge(s: string)
    ensures TrimLeft(s) == [] || !IsSpace(TrimLeft(s)[0])
    ensures |TrimLeft(s)| <= |s|
  {
    if s != [] && IsSpace(s[0]) { TrimLeftEdge(s[1..]); }
  }

  lemma {:induction false} TrimRightEdge(s: string)
    ensures TrimRight(s) <= s
    ensures TrimRight(s) == [] || !IsSpace(TrimRight(s)[|TrimRight(s)| - 1])
  {
    if s != [] && IsSpace(s[|s| - 1]) { TrimRightEdge(s[..|s| - 1]); }
  }

  /** A trimmed name is a fixed point: the handlers trim and then the trade tracker trims
      again, and both speak of the same mint. */
  lemma TrimSpaceIdempotent(s: string)
    ensures TrimSpace(TrimSpace(s)) == TrimSpace(s)
  {
    var l := TrimLeft(s);
    TrimLeftEdge(s);
    TrimRightEdge(l);
    var t := TrimRight(l);
    assert t != [] ==> t[0] == l[0];
  }

  /** Decimal digits have nothing to trim. */
  lemma DigitsAreTrimmed(n: nat)
    ensures TrimSpace(Digits(n)) == Digits(n) && Digits(n) != ""
  {
    DigitsAreDigits(n);
    var s := Digits(n);
    assert !IsSpace(s[0]) && !IsSpace(s[|s| - 1]);
  }

  predicate AllSpace(s: string) {
    forall i :: 0 <= i < |s| ==> IsSpace(s[i])
  }

  lemma {:induction false} TrimLeftDrops(l: string, s: string)
    requires AllSpace(l) && s != "" && !IsSpace(s[0])
    ensures TrimLeft(l + s) == s
  {
    if l == "" {
      assert l + s == s;
    } else {
      assert (l + s)[1..] == l[1..] + s;
      TrimLeftDrops(l[1..], s);
    }
  }

  lemma {:induction false} TrimRightDrops(s: string, r: string)
    requires AllSpace(r) && s != "" && !IsSpace(s[|s| - 1])
    ensures TrimRight(s + r) == s
  {
    if r == "" {
      assert s + r == s;
    } else {
      var n := |r| - 1;
      assert (s + r)[..|s| + n] == s + r[..n];
      TrimRightDrops(s, r[..n]);
    }
  }

  lemma {:induction false} TrimLeftOfSpace(s: string)
    requires AllSpace(s)
    ensures TrimLeft(s) == ""
  {
    if s != "" { TrimLeftOfSpace(s[1..]); }
  }

  /** Trimming removes exactly the space around a name, and leaves nothing of mere space. */
  lemma TrimSpaceExactly(l: string, s: string, r: string)
    requires AllSpace(l) && AllSpace(r)
    ensures s != "" && !IsSpace(s[0]) && !IsSpace(s[|s| - 1]) ==> TrimSpace(l + s + r) == s
    ensures TrimSpace(l) == ""
  {
    TrimLeftOfSpace(l);
    if s != "" && !IsSpace(s[0]) && !IsSpace(s[|s| - 1]) {
      assert l + s + r == l + (s + r);
      TrimLeftDrops(l, s + r);
      TrimRightDrops(s, r);
    }
  }

  /** The space characters below 128. */
  lemma AsciiSpaces(c: char)
    requires c < 128 as char
    ensures IsSpace(c) <==> c in " \t\n\r" || c == 11 as char || c == 12 as char
  {
  }

  /** strings.ToLower on the ASCII letters. */
  function ToLower(s: string): string {
    seq(|s|, i requires 0 <= i < |s| => if 'A' <= s[i] <= 'Z' then (s[i] as int + 32) as char else s[i])
  }
}
