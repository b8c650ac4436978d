/** Currency cells: `Number.prototype.toFixed(2)` on exact values and the
    `currencyPrinter` cell printer handed to easy-table. */
module Currency {
  import opened Interfaces

  predicate IsDigit(c: char) {
    '0' <= c <= '9'
  }

  predicate AllDigits(s: string) {
    forall i :: 0 <= i < |s| ==> IsDigit(s[i])
  }

  function DigitChar(d: nat): (c: char)
    requires d < 10
    ensures IsDigit(c) && c as int - '0' as int == d
  {
    ('0' as int + d) as char
  }

  /** The decimal digits of `n`, most significant first, with no leading zero. */
  function NatToString(n: nat): (s: string)
    ensures |s| >= 1 && AllDigits(s)
    ensures s[0] == '0' <==> n == 0
    decreases n
  {
    if n < 10 then [DigitChar(n)] else NatToString(n / 10) + [DigitChar(n % 10)]
  }

  /** The number a run of decimal digits denotes (0 for the empty run). */
  function DigitsValue(s: string): nat
    requires AllDigits(s)
    decreases |s|
  {
    if s == [] then 0 else DigitsValue(s[..|s| - 1]) * 10 + (s[|s| - 1] as int - '0' as int)
  }

  lemma {:induction false} DigitsRoundTrip(n: nat)
    ensures DigitsValue(NatToString(n)) == n
  {
    if n >= 10 {
      DigitsRoundTrip(n / 10);
      var s := NatToString(n);
      assert s[..|s| - 1] == NatToString(n / 10);
    }
  }

  /** The count of hundredths toFixed(2) shows for a non-negative x: the integer
      nearest to 100x, the larger one on a tie. */
  function RoundedCents(x: real): (n: nat)
    requires x >= 0.0
    ensures n as real - 0.5 <= 100.0 * x < n as real + 0.5
  {
    (100.0 * x + 0.5).Floor
  }

  /** "<whole>.<two digits>" for a count of hundredths. */
  function Fixed2Unsigned(n: nat): string {
    var cents := n % 100;
    NatToString(n / 100) + "." + [DigitChar(cents / 10), DigitChar(cents % 10)]
  }

  /** `x.toFixed(2)`: a minus sign for a negative x, then the magnitude rounded to
      hundredths with exactly two digits after the point. */
  function ToFixed2(x: real): string {
    if x < 0.0 then "-" + Fixed2Unsigned(RoundedCents(-x)) else Fixed2Unsigned(RoundedCents(x))
  }

  /** Reads "<digits>.<two digits>" back as a count of hundredths. */
  function ParseUnsignedCents(s: string): Option<nat> {
    if |s| >= 4 && s[|s| - 3] == '.' && AllDigits(s[..|s| - 3]) && AllDigits(s[|s| - 2..]) then
      Some(DigitsValue(s[..|s| - 3]) * 100 + DigitsValue(s[|s| - 2..]))
    else
      None
  }

  /** Reads an optionally signed two-decimal text back as a signed count of hundredths. */
  function ParseCents(s: string): Option<int> {
    if |s| > 0 && s[0] == '-' then
      match ParseUnsignedCents(s[1..])
      case Some(n) => Some(-(n as int))
      case None => None
    else
      match ParseUnsignedCents(s)
      case Some(n) => Some(n as int)
      case None => None
  }

  lemma Fixed2UnsignedRoundTrip(n: nat)
    ensures var s := Fixed2Unsigned(n); s[0] != '-' && ParseUnsignedCents(s) == Some(n)
  {
    var whole := NatToString(n / 100);
    var cents := n % 100;
    var tail := [DigitChar(cents / 10), DigitChar(cents % 10)];
    var s := whole + "." + tail;
    assert s == Fixed2Unsigned(n);
    assert s[0] == whole[0];
    assert s[..|s| - 3] == whole;
    assert s[|s| - 2..] == tail;
    DigitsRoundTrip(n / 100);
    assert DigitsValue(tail) == DigitsValue([tail[0]]) * 10 + (cents % 10) by {
      assert tail[..1] == [tail[0]];
    }
    assert DigitsValue([tail[0]]) == cents / 10 by {
      assert [tail[0]][..0] == [];
    }
  }

  /** The text toFixed(2) produces denotes x to within half a hundredth. */
  lemma ToFixed2Denotes(x: real)
    ensures ParseCents(ToFixed2(x)).Some?
    ensures var c := ParseCents(ToFixed2(x)).value;
            c as real - 0.5 <= 100.0 * x <= c as real + 0.5
  {
    if x < 0.0 {
      var n := RoundedCents(-x);
      Fixed2UnsignedRoundTrip(n);
      var s := "-" + Fixed2Unsigned(n);
      assert s[1..] == Fixed2Unsigned(n);
    } else {
      Fixed2UnsignedRoundTrip(RoundedCents(x));
    }
  }

  /** easy-table's `Table.padLeft`: spaces in front of s up to `width` characters. */
  function PadLeft(s: string, width: int): string {
    if width > |s| then seq(width - |s|, _ => ' ') + s else s
  }

  /** `currencyPrinter(val, width)`: the padding branch runs only when `width` is 0,
      where it adds nothing, so every cell is the bare toFixed(2) text. */
  function CurrencyPrinter(val: real, width: int): (r: string)
    ensures r == ToFixed2(val)
  {
    var str := ToFixed2(val);
    if width != 0 then str else PadLeft(str, width)
  }

  /** 1050 hundredths on the wire, divided by 100, print as "10.50". */
  lemma ConversionExample()
    ensures CurrencyPrinter(1050.0 / 100.0, 0) == "10.50"
  {
  }
}
