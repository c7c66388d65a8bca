/** The text form of an LSN, pq/lsn.go: two upper-case hexadecimal halves around a slash. */
module LsnText {
  import opened Basics

  const TWO_32: nat := 0x1_0000_0000
  const TWO_64: nat := 0x1_0000_0000_0000_0000

  function Digit(d: nat): char
    requires d < 16
  {
    "0123456789ABCDEF"[d]
  }

  /** The value of a hexadecimal digit of either case. */
  function DigitValue(c: char): (d: Option<nat>)
    ensures d.Some? ==> d.value < 16
  {
    if '0' <= c <= '9' then Some(c as nat - '0' as nat)
    else if 'A' <= c <= 'F' then Some(c as nat - 'A' as nat + 10)
    else if 'a' <= c <= 'f' then Some(c as nat - 'a' as nat + 10)
    else None
  }

  function PrintHex(n: nat): (s: string)
    ensures s != []
  {
    if n < 16 then [Digit(n)] else PrintHex(n / 16) + [Digit(n % 16)]
  }

  /** LSN.String. */
  function Print(lsn: nat): string { PrintHex(lsn / TWO_32 % TWO_32) + "/" + PrintHex(lsn % TWO_32) }

  /** How many hexadecimal digits s starts with. */
  function DigitCount(s: string): (n: nat)
    ensures n <= |s| && forall k | 0 <= k < n :: DigitValue(s[k]).Some?
  {
    if s == [] || DigitValue(s[0]).None? then 0 else 1 + DigitCount(s[1..])
  }

  function HexValue(s: string): nat
    requires forall k | 0 <= k < |s| :: DigitValue(s[k]).Some?
  {
    if s == [] then 0 else HexValue(s[..|s| - 1]) * 16 + DigitValue(s[|s| - 1]).value
  }

  /** One %X: at least one digit and at most 64 bits; also where it stops. */
  function ScanHex(s: string): Option<(nat, nat)> {
    var n := DigitCount(s);
    if n == 0 || HexValue(s[..n]) >= TWO_64 then None else Some((HexValue(s[..n]), n))
  }

  /** ParseLSN: what follows the second number is ignored, and the upper half is
      shifted in 64 bits. */
  function Parse(s: string): Option<nat> {
    match ScanHex(s)
    case None => None
    case Some((upper, n)) =>
      if n >= |s| || s[n] != '/' then None
      else
        match ScanHex(s[n + 1..])
        case None => None
        case Some((lower, _)) => Some((upper * TWO_32 % TWO_64 + lower) % TWO_64)
  }

  lemma DigitBack(d: nat)
    requires d < 16
    ensures DigitValue(Digit(d)) == Some(d)
  {
  }

  lemma {:induction false} PrintedDigits(n: nat, k: nat)
    requires k < |PrintHex(n)|
    ensures DigitValue(PrintHex(n)[k]).Some?
  {
    if n < 16 {
      DigitBack(n);
    } else if k < |PrintHex(n / 16)| {
      PrintedDigits(n / 16, k);
    } else {
      DigitBack(n % 16);
    }
  }

  lemma {:induction false} PrintedValue(n: nat)
    ensures forall k | 0 <= k < |PrintHex(n)| :: DigitValue(PrintHex(n)[k]).Some?
    ensures HexValue(PrintHex(n)) == n
  {
    forall k | 0 <= k < |PrintHex(n)| ensures DigitValue(PrintHex(n)[k]).Some? { PrintedDigits(n, k); }
    var s := PrintHex(n);
    if n < 16 {
      DigitBack(n);
      assert s[..0] == [];
    } else {
      PrintedValue(n / 16);
      DigitBack(n % 16);
      assert s[..|s| - 1] == PrintHex(n / 16);
    }
  }

  lemma {:induction false} DigitsStop(s: string, rest: string)
    requires forall k | 0 <= k < |s| :: DigitValue(s[k]).Some?
    requires rest == [] || DigitValue(rest[0]).None?
    ensures DigitCount(s + rest) == |s|
    decreases |s|
  {
    if s == [] {
      assert s + rest == rest;
    } else {
      assert (s + rest)[1..] == s[1..] + rest;
      DigitsStop(s[1..], rest);
    }
  }

  lemma SlashIsNoDigit()
    ensures DigitValue('/').None?
  {
  }

  lemma Shifted(upper: nat, lower: nat)
    ensures (upper * TWO_32 % TWO_64 + lower) % TWO_64 == (upper % TWO_32 * TWO_32 + lower) % TWO_64
  {
  }

  lemma Halves(lsn: nat)
    requires lsn < TWO_64
    ensures var upper, lower := lsn / TWO_32, lsn % TWO_32;
            upper < TWO_32 && lower < TWO_32 && upper % TWO_32 == upper && (upper * TWO_32 + lower) % TWO_64 == lsn
  {
  }

  /** What any accepted text means: the halves are added after the upper one lost
      all but its low 32 bits. */
  lemma ParseMeans(upper: nat, lower: nat, rest: string)
    requires upper < TWO_64 && lower < TWO_64 && (rest == [] || DigitValue(rest[0]).None?)
    ensures Parse(PrintHex(upper) + "/" + PrintHex(lower) + rest)
         == Some((upper % TWO_32 * TWO_32 + lower) % TWO_64)
  {
    hide ScanHex, PrintHex, DigitValue;
    SlashIsNoDigit();
    Shifted(upper, lower);
    var a, b := PrintHex(upper), PrintHex(lower);
    var s := a + "/" + b + rest;
    assert s == a + ("/" + (b + rest));
    ScanNumber(upper, "/" + (b + rest));
    ScanNumber(lower, rest);
    assert s[|a| + 1..] == b + rest;
  }

  /** The stored text of every 64-bit position parses back to it. */
  lemma ParsePrint(lsn: nat)
    requires lsn < TWO_64
    ensures Parse(Print(lsn)) == Some(lsn)
  {
    hide ScanHex, PrintHex, DigitValue;
    var upper, lower := lsn / TWO_32, lsn % TWO_32;
    var a, b := PrintHex(upper), PrintHex(lower);
    Halves(lsn);
    ParseMeans(upper, lower, []);
    assert a + "/" + b + [] == Print(lsn);
  }

  function Pow16(k: nat): nat { if k == 0 then 1 else 16 * Pow16(k - 1) }

  lemma Pow16Positive(k: nat)
    ensures Pow16(k) > 0
  {
  }

  lemma DivideTwice(n: nat, b: nat)
    requires b > 0
    ensures n / (16 * b) == n / 16 / b
  {
    var q, r := n / 16 / b, n / 16 % b;
    assert n / 16 == b * q + r;
    var m := n % 16;
    assert n == 16 * (b * q + r) + m == q * (16 * b) + (16 * r + m);
    assert 0 <= 16 * r + m < 16 * b;
    Quotient(n, 16 * b, q, 16 * r + m);
  }

  lemma Quotient(n: nat, d: nat, q: nat, r: nat)
    requires d > 0 && n == q * d + r && r < d
    ensures n / d == q
  {
    var p := n / d;
    assert n == p * d + n % d;
    if p < q { MulLe(p + 1, q, d); }
    if q < p { MulLe(q + 1, p, d); }
  }

  lemma MulLe(a: int, b: int, c: int)
    requires a <= b && c >= 0
    ensures a * c <= b * c
  {
  }

  /** The printed number: upper-case digits, the last one for the ones, and no leading zero. */
  lemma {:induction false} PrintedDigit(n: nat, k: nat)
    requires k < |PrintHex(n)|
    ensures Pow16(k) > 0
    ensures var s := PrintHex(n); s[|s| - 1 - k] == "0123456789ABCDEF"[n / Pow16(k) % 16]
    ensures |PrintHex(n)| > 1 ==> PrintHex(n)[0] != '0'
    decreases n
  {
    hide Pow16;
    Pow16Positive(k);
    if n < 16 {
      Small(n);
    } else {
      var init := PrintHex(n / 16);
      assert PrintHex(n) == init + [Digit(n % 16)];
      if k == 0 {
        Ones(n);
      } else {
        PrintedDigit(n / 16, k - 1);
        Shifted16(n, k);
      }
      FirstDigit(n / 16);
    }
  }

  lemma Small(n: nat)
    requires n < 16
    ensures n / Pow16(0) % 16 == n
  {
  }

  lemma Ones(n: nat)
    ensures Pow16(0) > 0 && n / Pow16(0) % 16 == n % 16
  {
  }

  lemma Shifted16(n: nat, k: nat)
    requires k > 0
    ensures Pow16(k) > 0 && Pow16(k - 1) > 0 && n / Pow16(k) == n / 16 / Pow16(k - 1)
  {
    Pow16Positive(k - 1);
    DivideTwice(n, Pow16(k - 1));
  }

  lemma {:induction false} FirstDigit(n: nat)
    requires n > 0
    ensures PrintHex(n)[0] != '0'
  {
    if n >= 16 { FirstDigit(n / 16); }
  }

  /** The upper 32 bits stand before the slash, the lower 32 after it. */
  lemma PrintIs(upper: nat, lower: nat)
    requires upper < 0x1_0000_0000 && lower < 0x1_0000_0000
    ensures Print(upper * 0x1_0000_0000 + lower) == PrintHex(upper) + "/" + PrintHex(lower)
    ensures Parse(PrintHex(upper) + "/" + PrintHex(lower)) == Some(upper * 0x1_0000_0000 + lower)
  {
    hide PrintHex, Parse, Print;
    var lsn := upper * 0x1_0000_0000 + lower;
    Joined(upper, lower);
    ParsePrint(lsn);
    assert Print(lsn) == PrintHex(upper) + "/" + PrintHex(lower) by { TextOf(lsn, upper, lower); }
  }

  lemma Joined(upper: nat, lower: nat)
    requires upper < 0x1_0000_0000 && lower < 0x1_0000_0000
    ensures var lsn := upper * 0x1_0000_0000 + lower;
            lsn / 0x1_0000_0000 == upper && lsn % 0x1_0000_0000 == lower && lsn < 0x1_0000_0000_0000_0000
  {
  }

  lemma TextOf(lsn: nat, upper: nat, lower: nat)
    requires lsn / 0x1_0000_0000 == upper < 0x1_0000_0000 && lsn % 0x1_0000_0000 == lower
    ensures Print(lsn) == PrintHex(upper) + "/" + PrintHex(lower)
  {
    hide PrintHex;
  }

  /** A half beyond 64 bits is rejected. */
  lemma ParseTooBig(upper: nat, lower: nat, rest: string)
    requires rest == [] || DigitValue(rest[0]).None?
    ensures upper >= 0x1_0000_0000_0000_0000 ==> Parse(PrintHex(upper) + rest) == None
    ensures upper < 0x1_0000_0000_0000_0000 <= lower ==>
              Parse(PrintHex(upper) + "/" + PrintHex(lower) + rest) == None
  {
    hide ScanHex, PrintHex, DigitValue;
    SlashIsNoDigit();
    var a, b := PrintHex(upper), PrintHex(lower);
    ScanNumber(upper, rest);
    ScanNumber(upper, "/" + (b + rest));
    ScanNumber(lower, rest);
    assert a + "/" + b + rest == a + ("/" + (b + rest));
    assert (a + "/" + b + rest)[|a| + 1..] == b + rest;
  }

  /** So is a text that does not start with a digit, has no slash after its first number or
      no digit after the slash. */
  lemma ParseMalformed(upper: nat, rest: string)
    requires rest == [] || DigitValue(rest[0]).None?
    ensures Parse(rest) == None
    ensures rest == [] || rest[0] != '/' ==> Parse(PrintHex(upper) + rest) == None
    ensures Parse(PrintHex(upper) + "/" + rest) == None
  {
    hide ScanHex, PrintHex, DigitValue;
    SlashIsNoDigit();
    var a := PrintHex(upper);
    NoNumber(rest);
    ScanNumber(upper, rest);
    ScanNumber(upper, "/" + rest);
    assert a + "/" + rest == a + ("/" + rest);
    assert (a + "/" + rest)[|a| + 1..] == rest;
  }

  lemma NoNumber(s: string)
    requires s == [] || DigitValue(s[0]).None?
    ensures ScanHex(s) == None
  {
  }

  lemma ScanNumber(n: nat, rest: string)
    requires rest == [] || DigitValue(rest[0]).None?
    ensures ScanHex(PrintHex(n) + rest)
         == if n >= 0x1_0000_0000_0000_0000 then None else Some((n, |PrintHex(n)|))
  {
    PrintedValue(n);
    DigitsStop(PrintHex(n), rest);
    assert (PrintHex(n) + rest)[..|PrintHex(n)|] == PrintHex(n);
  }

  /** Digits of either case are read. */
  lemma DigitIs(d: nat)
    requires d < 16
    ensures DigitValue("0123456789ABCDEF"[d]) == Some(d) && DigitValue("0123456789abcdef"[d]) == Some(d)
  {
  }
}
