/** The text forms that signed orders are built from: decimal numbers, lower-case hex and separated fields. */
module OrderText {
  import opened Outcomes
  import opened Numbers

  // ----- Decimal numbers

  predicate IsDigit(c: char) {
    '0' <= c <= '9'
  }

  function Digit(d: nat): char
    requires d < 10
  {
    '0' + d as char
  }

  function Decimal(n: nat): (s: string)
    ensures s != [] && forall c | c in s :: IsDigit(c)
  {
    if n < 10 then [Digit(n)] else Decimal(n / 10) + [Digit(n % 10)]
  }

  /** BigInt.prototype.toString. */
  function Show(n: int): string {
    if n < 0 then "-" + Decimal(-n) else Decimal(n)
  }

  function Value(s: string): nat
    requires forall c | c in s :: IsDigit(c)
  {
    if s == [] then 0
    else
      var last := s[|s| - 1];
      assert last in s && IsDigit(last);
      10 * Value(s[..|s| - 1]) + (last - '0') as int
  }

  lemma {:induction false} ValueOfDecimal(n: nat)
    ensures Value(Decimal(n)) == n
  {
    if n >= 10 {
      ValueOfDecimal(n / 10);
      assert Decimal(n)[..|Decimal(n)| - 1] == Decimal(n / 10);
    }
  }

  /** The white space that String.prototype.trim removes. */
  predicate IsSpace(c: char) {
    || '\U{0009}' <= c <= '\U{000D}' || c == '\U{0020}' || c == '\U{00A0}' || c == '\U{1680}'
    || '\U{2000}' <= c <= '\U{200A}' || c == '\U{2028}' || c == '\U{2029}' || c == '\U{202F}'
    || c == '\U{205F}' || c == '\U{3000}' || c == '\U{FEFF}'
  }

  function Trim(s: string): string {
    if s != [] && IsSpace(s[0]) then Trim(s[1..])
    else if s != [] && IsSpace(s[|s| - 1]) then Trim(s[..|s| - 1])
    else s
  }

  /** Optional minus sign and at least one digit; None stands for null. */
  function ParseBigInt(text: string): Option<int> {
    var s := Trim(text);
    var digits := if s != [] && s[0] == '-' then s[1..] else s;
    if digits == [] || exists c | c in digits :: !IsDigit(c) then None
    else Some(if s[0] == '-' then -(Value(digits) as int) else Value(digits))
  }

  lemma DigitIsNotSpace(c: char)
    requires IsDigit(c) || c == '-'
    ensures !IsSpace(c)
  {
  }

  lemma ShowIsTrim(n: int)
    ensures Trim(Show(n)) == Show(n)
  {
    hide IsSpace, IsDigit, Decimal;
    var s := Show(n);
    assert s[0] == '-' || s[0] in Decimal(n);
    assert s[|s| - 1] in if n < 0 then Decimal(-n) else Decimal(n);
    DigitIsNotSpace(s[0]);
    DigitIsNotSpace(s[|s| - 1]);
  }

  /** Reading back a printed number gives the number. */
  lemma ParseShow(n: int)
    ensures ParseBigInt(Show(n)) == Some(n)
  {
    hide Trim, Decimal, Value;
    ShowIsTrim(n);
    if n < 0 {
      ValueOfDecimal(-n);
      assert Show(n)[1..] == Decimal(-n);
    } else {
      assert Show(n)[0] in Decimal(n);
      ValueOfDecimal(n);
    }
  }

  lemma ShowInjective(m: int, n: int)
    ensures Show(m) == Show(n) <==> m == n
  {
    ParseShow(m);
    ParseShow(n);
  }

  function Pow10(k: nat): nat {
    if k == 0 then 1 else 10 * Pow10(k - 1)
  }

  lemma {:induction false} Pow10Sum(j: nat, k: nat)
    ensures Pow10(j + k) == Pow10(j) * Pow10(k)
  {
    if k > 0 {
      Pow10Sum(j, k - 1);
      assert Pow10(j + k) == 10 * Pow10(j + k - 1);
      assert 10 * (Pow10(j) * Pow10(k - 1)) == Pow10(j) * (10 * Pow10(k - 1));
    }
  }

  /** An unsigned number of 128 bits has at most forty digits. */
  lemma FortyDigits()
    ensures 0x1_0000_0000_0000_0000_0000_0000_0000_0000 < Pow10(40)
  {
    assert Pow10(5) == 100000;
    Pow10Sum(5, 5);
    Pow10Sum(10, 10);
    Pow10Sum(20, 20);
  }

  /** The digits still to be written. */
  function Leading(n: nat): string {
    if n == 0 then [] else Decimal(n)
  }

  lemma LastDigitMoves(n: nat, written: string)
    requires n > 0
    ensures Leading(n) + written == Leading(n / 10) + ([Digit(n % 10)] + written)
  {
    assert Leading(n) == Leading(n / 10) + [Digit(n % 10)];
  }

  /** Fills a fixed buffer of forty digits from the back. */
  method AppendDecimal(buf: string, v: nat) returns (out: string)
    requires v < 0x1_0000_0000_0000_0000_0000_0000_0000_0000
    ensures out == buf + Decimal(v)
  {
    if v == 0 {
      return buf + ['0'];
    }
    var tmp := new char[40](_ => '0');
    var i := 40;
    var n := v;
    FortyDigits();
    assert tmp[40..] == [];
    while n > 0
      invariant 0 <= i <= 40 && 0 <= n < Pow10(i)
      invariant Leading(n) + tmp[i..] == Decimal(v)
    {
      i := i - 1;
      tmp[i] := Digit(n % 10);
      assert tmp[i..] == [Digit(n % 10)] + tmp[i + 1..];
      LastDigitMoves(n, tmp[i + 1..]);
      n := n / 10;
    }
    assert Leading(n) + tmp[i..] == tmp[i..];
    out := buf + tmp[i..];
  }

  method AppendSigned(buf: string, v: int) returns (out: string)
    requires -0x8000_0000_0000_0000_0000_0000_0000_0000 <= v < 0x8000_0000_0000_0000_0000_0000_0000_0000
    ensures out == buf + Show(v)
  {
    if v < 0 {
      out := AppendDecimal(buf + ['-'], -v);
    } else {
      out := AppendDecimal(buf, v);
    }
  }

  // ----- Hex

  const HEX: string := "0123456789abcdef"

  function Hex(bytes: seq<Byte>): string {
    if bytes == [] then []
    else
      var b := bytes[|bytes| - 1];
      Hex(bytes[..|bytes| - 1]) + [HEX[b / 16], HEX[b % 16]]
  }

  lemma HexDigits()
    ensures forall i, j | 0 <= i < j < 16 :: HEX[i] != HEX[j]
    ensures forall i | 0 <= i < 16 :: HEX[i] != '|' && HEX[i] != '\n'
  {
  }

  lemma {:induction false} HexShape(a: seq<Byte>)
    ensures |Hex(a)| == 2 * |a|
    ensures '|' !in Hex(a)
  {
    HexDigits();
    if a != [] {
      HexShape(a[..|a| - 1]);
    }
  }

  lemma LastTwo(s: string, a: char, b: char, t: string, c: char, d: char)
    requires s + [a, b] == t + [c, d]
    ensures s == t && a == c && b == d
  {
    var n := |s + [a, b]|;
    assert |t + [c, d]| == n;
    assert (s + [a, b])[..n - 2] == s && (t + [c, d])[..n - 2] == t;
    assert (s + [a, b])[n - 2..] == [a, b] && (t + [c, d])[n - 2..] == [c, d];
    assert [a, b][0] == [c, d][0] && [a, b][1] == [c, d][1];
  }

  lemma {:induction false} HexInjective(a: seq<Byte>, b: seq<Byte>)
    ensures Hex(a) == Hex(b) <==> a == b
  {
    HexShape(a);
    HexShape(b);
    if a != [] && Hex(a) == Hex(b) {
      var m, n := |a| - 1, |b| - 1;
      var x, y := a[m], b[n];
      LastTwo(Hex(a[..m]), HEX[x / 16], HEX[x % 16], Hex(b[..n]), HEX[y / 16], HEX[y % 16]);
      HexDigits();
      HexInjective(a[..m], b[..n]);
      assert a == a[..m] + [a[m]] && b == b[..n] + [b[n]];
    }
  }

  /** Number.prototype.toString with radix 16, for a byte. */
  function ToString16(b: Byte): string {
    if b < 16 then [HEX[b]] else [HEX[b / 16], HEX[b % 16]]
  }

  function PadStart(s: string, length: nat, fill: char): string
    decreases length - |s|
  {
    if |s| >= length then s else PadStart([fill] + s, length, fill)
  }

  method ToHex(bytes: seq<Byte>) returns (s: string)
    ensures s == Hex(bytes)
  {
    s := "";
    for k := 0 to |bytes|
      invariant s == Hex(bytes[..k])
    {
      assert PadStart(ToString16(bytes[k]), 2, '0') == [HEX[bytes[k] / 16], HEX[bytes[k] % 16]];
      s := s + PadStart(ToString16(bytes[k]), 2, '0');
      assert bytes[..k + 1][..k] == bytes[..k];
    }
    assert bytes[..|bytes|] == bytes;
  }

  /** Writes two characters a step into a fixed buffer of sixty-four. */
  method AppendHex(buf: string, bytes: seq<Byte>) returns (out: string)
    requires |bytes| == 32
    ensures out == buf + Hex(bytes)
  {
    var chars := new char[64](_ => '0');
    var i := 0;
    while i < 32
      invariant 0 <= i <= 32
      invariant chars[..2 * i] == Hex(bytes[..i])
    {
      chars[i * 2] := HEX[bytes[i] / 16];
      chars[i * 2 + 1] := HEX[bytes[i] % 16];
      assert chars[..2 * (i + 1)] == chars[..2 * i] + [chars[i * 2], chars[i * 2 + 1]];
      assert bytes[..i + 1][..i] == bytes[..i];
      i := i + 1;
    }
    assert chars[..] == chars[..64] && bytes[..32] == bytes;
    out := buf + chars[..];
  }

  // ----- Separated fields

  function Join(parts: seq<string>, sep: char): string
    requires parts != []
  {
    if |parts| == 1 then parts[0] else Join(parts[..|parts| - 1], sep) + [sep] + parts[|parts| - 1]
  }

  /** The last separator is where the last field starts. */
  lemma {:induction false} LastField(a: string, x: string, b: string, y: string, sep: char)
    requires sep !in x && sep !in y
    requires a + [sep] + x == b + [sep] + y
    ensures a == b && x == y
  {
    var s := a + [sep] + x;
    assert forall k | |a| < k < |s| :: s[k] == x[k - |a| - 1];
    assert forall k | |b| < k < |s| :: s[k] == y[k - |b| - 1];
    assert s[|a|] == sep && s[|b|] == sep;
    assert |a| == |b|;
    assert s[..|a|] == a && s[..|b|] == b;
    assert s[|a| + 1..] == x && s[|b| + 1..] == y;
  }

  /** Fields can be read off from the right: only the first may contain the separator. */
  lemma {:induction false} JoinInjective(a: seq<string>, b: seq<string>, sep: char)
    requires |a| == |b| > 0
    requires forall k | 1 <= k < |a| :: sep !in a[k] && sep !in b[k]
    ensures Join(a, sep) == Join(b, sep) <==> a == b
  {
    var n := |a| - 1;
    if n > 0 && Join(a, sep) == Join(b, sep) {
      LastField(Join(a[..n], sep), a[n], Join(b[..n], sep), b[n], sep);
      JoinInjective(a[..n], b[..n], sep);
      assert a == a[..n] + [a[n]] && b == b[..n] + [b[n]];
    }
  }
}
