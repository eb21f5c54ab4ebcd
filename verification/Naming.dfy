// The names of recording files: "<dir>20yymmddhhmmss_<number>" plus one suffix for
// each stream (src/store.c:311, 388, 481-482, 579-580).
module Naming {
  import opened Common

  // The six time bytes read from BRAM, printed with "%02x" each.
  datatype Time = Time(year: byte, month: byte, day: byte, hour: byte, minute: byte, second: byte)

  datatype Stream = MainStream | PulseStream | IndexStream

  function HexDigit(d: int): char
    requires 0 <= d < 16
  {
    "0123456789abcdef"[d]
  }

  function Hex2(b: byte): string {
    [HexDigit(b as int / 16), HexDigit(b as int % 16)]
  }

  // "%d" of a non-negative number.
  function Decimal(n: nat): string {
    if n < 10 then [HexDigit(n)] else Decimal(n / 10) + [HexDigit(n % 10)]
  }

  function Stamp(t: Time): string {
    "20" + Hex2(t.year) + Hex2(t.month) + Hex2(t.day) + Hex2(t.hour) + Hex2(t.minute) + Hex2(t.second) + "_"
  }

  function BaseName(dir: string, t: Time, number: nat): string {
    dir + Stamp(t) + Decimal(number)
  }

  function Suffix(stream: Stream): string {
    match stream
    case MainStream => ".bxsldmn"
    case PulseStream => ".bxsldpls"
    case IndexStream => ".bxsldsy"
  }

  function FileName(base: string, stream: Stream): string {
    base + Suffix(stream)
  }

  // ---------- reading a name ----------

  function DigitValue(c: char): nat {
    if '0' <= c <= '9' then c as int - '0' as int
    else if 'a' <= c <= 'f' then c as int - 'a' as int + 10
    else 0
  }

  // The number that two hexadecimal digits stand for.
  function Hex2Value(s: string, i: nat): nat
    requires i + 2 <= |s|
  {
    16 * DigitValue(s[i]) + DigitValue(s[i + 1])
  }

  // The number that decimal digits stand for.
  function DecimalValue(s: string): nat {
    if s == [] then 0 else 10 * DecimalValue(s[..|s| - 1]) + DigitValue(s[|s| - 1])
  }

  lemma HexDigitReads(d: int)
    requires 0 <= d < 16
    ensures DigitValue(HexDigit(d)) == d && (d < 10 ==> '0' <= HexDigit(d) <= '9')
  {
  }

  lemma Hex2Reads(b: byte)
    ensures |Hex2(b)| == 2 && Hex2Value(Hex2(b), 0) == b as int
  {
    HexDigitReads(b as int / 16);
    HexDigitReads(b as int % 16);
  }

  predicate Digits(s: string) { s != [] && forall c <- s :: '0' <= c <= '9' }

  lemma DigitAppended(s: string, d: int)
    requires 0 <= d < 10
    ensures DecimalValue(s + [HexDigit(d)]) == 10 * DecimalValue(s) + d
    ensures Digits(s) || s == [] ==> Digits(s + [HexDigit(d)])
  {
    HexDigitReads(d);
    assert (s + [HexDigit(d)])[..|s|] == s;
    hide HexDigit;
  }

  // "%d" gives digits that stand for the number.
  lemma {:induction false} DecimalReads(n: nat)
    ensures DecimalValue(Decimal(n)) == n && Digits(Decimal(n))
  {
    hide DecimalValue, Digits, HexDigit;
    if n >= 10 {
      DecimalReads(n / 10);
      DigitAppended(Decimal(n / 10), n % 10);
    } else {
      DigitAppended([], n);
      assert [] + [HexDigit(n)] == Decimal(n);
      assert DecimalValue([]) == 0 by { NoDigits(); }
    }
  }

  lemma NoDigits()
    ensures DecimalValue([]) == 0
  {
  }

  // The fields of the time stand at fixed places of the stamp.
  lemma StampReads(t: Time)
    ensures var s := Stamp(t);
      && |s| == 15 && s[..2] == "20" && s[14] == '_'
      && Hex2Value(s, 2) == t.year as int && Hex2Value(s, 4) == t.month as int && Hex2Value(s, 6) == t.day as int
      && Hex2Value(s, 8) == t.hour as int && Hex2Value(s, 10) == t.minute as int
      && Hex2Value(s, 12) == t.second as int
  {
    Hex2Reads(t.year);
    Hex2Reads(t.month);
    Hex2Reads(t.day);
    Hex2Reads(t.hour);
    Hex2Reads(t.minute);
    Hex2Reads(t.second);
  }

  // A base name reads as its directory, the six fields of the time in their order and the
  // slice number.
  lemma BaseNameReads(dir: string, t: Time, number: nat)
    ensures var s, k := BaseName(dir, t, number), |dir|;
      && |s| > k + 15 && s[..k] == dir && s[k..k + 2] == "20" && s[k + 14] == '_'
      && Hex2Value(s, k + 2) == t.year as int && Hex2Value(s, k + 4) == t.month as int
      && Hex2Value(s, k + 6) == t.day as int && Hex2Value(s, k + 8) == t.hour as int
      && Hex2Value(s, k + 10) == t.minute as int && Hex2Value(s, k + 12) == t.second as int
      && DecimalValue(s[k + 15..]) == number && Digits(s[k + 15..])
  {
    var s, k := BaseName(dir, t, number), |dir|;
    StampReads(t);
    DecimalReads(number);
    assert s[k..k + 15] == Stamp(t) && s[k + 15..] == Decimal(number);
    assert forall i {:trigger Stamp(t)[i]} :: 0 <= i < 15 ==> s[k + i] == Stamp(t)[i];
    assert s[k..k + 2] == Stamp(t)[..2];
    hide Stamp, Decimal;
  }

  // So two base names in one directory agree only for one time and one slice number.
  lemma BaseNameInjective(dir: string, t: Time, m: nat, u: Time, n: nat)
    requires BaseName(dir, t, m) == BaseName(dir, u, n)
    ensures m == n && t == u
  {
    BaseNameReads(dir, t, m);
    BaseNameReads(dir, u, n);
    hide BaseName, Hex2Value, DecimalValue;
  }

  // Files of different streams, or of different slices, never share a path.
  lemma FileNameInjective(a: string, s: Stream, b: string, t: Stream)
    requires FileName(a, s) == FileName(b, t)
    ensures a == b && s == t
  {
    var f, g := FileName(a, s), FileName(b, t);
    assert f[|f| - 1] == Suffix(s)[|Suffix(s)| - 1];
    assert g[|g| - 1] == Suffix(t)[|Suffix(t)| - 1];
    assert s == t;
    assert f[..|a|] == a && g[..|b|] == b;
  }
}
