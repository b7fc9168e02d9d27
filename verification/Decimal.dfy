/** Decimal numbers as `%d` prints them and `intValue` reads them, and host-port strings made of two. */
module Decimals {

  const INT_MAX := 0x7fff_ffff
  const INT_MIN := -0x8000_0000

  predicate IsDigit(c: char) {
    '0' <= c <= '9'
  }

  function Digit(n: nat): (c: char)
    requires n < 10
    ensures IsDigit(c) && DigitValue(c) == n
  {
    n as char + '0'
  }

  function DigitValue(c: char): (n: nat)
    requires IsDigit(c)
    ensures n < 10
  {
    (c - '0') as nat
  }

  function Digits(n: nat): (s: string)
    ensures s != [] && forall i | 0 <= i < |s| :: IsDigit(s[i])
  {
    if n < 10 then [Digit(n)] else Digits(n / 10) + [Digit(n % 10)]
  }

  /** What `%d` prints. */
  function Print(i: int): string {
    if i < 0 then "-" + Digits(-i) else Digits(i)
  }

  /** The value of the digits a string starts with, carried on from `acc`. */
  function Leading(s: string, acc: nat): nat {
    if s == [] || !IsDigit(s[0]) then acc else Leading(s[1..], 10 * acc + DigitValue(s[0]))
  }

  function Saturate(i: int): (n: int)
    ensures INT_MIN <= n <= INT_MAX && (INT_MIN <= i <= INT_MAX ==> n == i)
  {
    if i > INT_MAX then INT_MAX else if i < INT_MIN then INT_MIN else i
  }

  /** What `intValue` reads: leading spaces, a sign, and as many digits as follow, held to 32 bits. */
  function IntValue(s: string): (i: int)
    ensures INT_MIN <= i <= INT_MAX
  {
    if s == [] then 0
    else if s[0] == ' ' then IntValue(s[1..])
    else if s[0] == '-' then Saturate(0 - Leading(s[1..], 0) as int)
    else if s[0] == '+' then Saturate(Leading(s[1..], 0))
    else Saturate(Leading(s, 0))
  }

  /** Decimal numerals: a digit, a numeral and a digit, or a minus sign and the numeral of a positive number. */
  lemma PrintIsDecimal(n: nat, d: nat)
    requires d < 10
    ensures Print(d) == ["0123456789"[d]]
    ensures n > 0 ==> Print(10 * n + d) == Print(n) + Print(d)
    ensures n > 0 ==> Print(-1 * n) == "-" + Print(n)
  {
    assert (10 * n + d) / 10 == n && (10 * n + d) % 10 == d;
  }

  lemma {:induction false} LeadingAppend(s: string, c: char, acc: nat)
    requires IsDigit(c) && forall i | 0 <= i < |s| :: IsDigit(s[i])
    ensures Leading(s + [c], acc) == 10 * Leading(s, acc) + DigitValue(c)
  {
    if s == [] {
      assert (s + [c])[1..] == [];
      assert Leading((s + [c])[1..], 10 * acc + DigitValue(c)) == 10 * acc + DigitValue(c);
    } else {
      assert (s + [c])[1..] == s[1..] + [c];
      LeadingAppend(s[1..], c, 10 * acc + DigitValue(s[0]));
    }
  }

  lemma {:induction false} LeadingDigits(n: nat)
    ensures Leading(Digits(n), 0) == n
  {
    if n < 10 {
      assert Digits(n)[1..] == [];
      assert Leading(Digits(n)[1..], n) == n;
    } else {
      LeadingDigits(n / 10);
      LeadingAppend(Digits(n / 10), Digit(n % 10), 0);
    }
  }

  lemma {:induction false} LeadingStops(s: string, rest: string, acc: nat)
    requires (forall i | 0 <= i < |s| :: IsDigit(s[i])) && (rest != "" ==> !IsDigit(rest[0]))
    ensures Leading(s + rest, acc) == Leading(s, acc)
  {
    if s == [] {
      assert s + rest == rest;
    } else {
      assert (s + rest)[1..] == s[1..] + rest;
      LeadingStops(s[1..], rest, 10 * acc + DigitValue(s[0]));
    }
  }

  /**
   * What `intValue` reads of any text: spaces are passed over, what follows the digits is left, and a number out of
   * the 32-bit range is held to its nearer end.
   */
  lemma IntValueReads(text: string, n: nat, rest: string)
    requires rest != "" ==> !IsDigit(rest[0])
    ensures IntValue(" " + text) == IntValue(text)
    ensures IntValue(Digits(n) + rest) == IntValue("+" + (Digits(n) + rest)) == if n > 2147483647 then 2147483647 else n
    ensures IntValue("-" + (Digits(n) + rest)) == if n > 2147483648 then -2147483648 else -1 * n
  {
    var s := Digits(n) + rest;
    LeadingDigits(n);
    LeadingStops(Digits(n), rest, 0);
    assert IsDigit(s[0]) && (" " + text)[1..] == text && ("+" + s)[1..] == s && ("-" + s)[1..] == s;
  }

  /** Reading back a printed number gives the number, for every 32-bit integer. */
  lemma PrintRoundTrip(i: int)
    requires INT_MIN <= i <= INT_MAX
    ensures IntValue(Print(i)) == i
  {
    if i < 0 {
      LeadingDigits(-i);
      assert Print(i)[1..] == Digits(-i);
    } else {
      LeadingDigits(i);
      assert IsDigit(Print(i)[0]);
    }
  }

  // Host and port in one string.

  /** `strForHost:port:`. */
  function HostPort(host: int, port: int): string {
    Print(host) + ":" + Print(port)
  }

  /** `componentsSeparatedByString:@":"`. */
  function Components(s: string): (parts: seq<string>)
    ensures parts != []
  {
    if s == [] then [""]
    else
      var rest := Components(s[1..]);
      if s[0] == ':' then [""] + rest else [[s[0]] + rest[0]] + rest[1..]
  }

  lemma {:induction false} ComponentsPlain(s: string)
    requires ':' !in s
    ensures Components(s) == [s]
  {
    if s != [] {
      assert s == [s[0]] + s[1..];
      ComponentsPlain(s[1..]);
    }
  }

  lemma {:induction false} ComponentsJoin(a: string, b: string)
    requires ':' !in a
    ensures Components(a + ":" + b) == [a] + Components(b)
  {
    var s := a + ":" + b;
    if a == [] {
      assert s[1..] == b;
    } else {
      assert a == [a[0]] + a[1..];
      assert s[1..] == a[1..] + ":" + b;
      ComponentsJoin(a[1..], b);
      var rest := Components(s[1..]);
      assert rest == [a[1..]] + Components(b) && rest[1..] == Components(b);
    }
  }

  lemma PrintPlain(i: int)
    ensures ':' !in Print(i)
  {
    if i < 0 {
      assert forall k | 0 <= k < |Print(i)| :: Print(i)[k] == '-' || IsDigit(Print(i)[k]);
    }
  }

  /** Splitting and reading back a host-port string gives the host and the port. */
  lemma HostPortRoundTrip(host: int, port: int)
    requires INT_MIN <= host <= INT_MAX && INT_MIN <= port <= INT_MAX
    ensures var parts := Components(HostPort(host, port));
      |parts| == 2 && IntValue(parts[0]) == host && IntValue(parts[1]) == port
  {
    PrintPlain(host);
    PrintPlain(port);
    ComponentsJoin(Print(host), Print(port));
    ComponentsPlain(Print(port));
    PrintRoundTrip(host);
    PrintRoundTrip(port);
  }

  /** Different endpoints have different keys. */
  lemma HostPortInjective(host: int, port: int, host': int, port': int)
    requires INT_MIN <= host <= INT_MAX && INT_MIN <= port <= INT_MAX
    requires INT_MIN <= host' <= INT_MAX && INT_MIN <= port' <= INT_MAX
    ensures HostPort(host, port) == HostPort(host', port') <==> host == host' && port == port'
  {
    HostPortRoundTrip(host, port);
    HostPortRoundTrip(host', port');
  }
}
