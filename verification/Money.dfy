/** Amounts of money as text: yuan with two decimals on the outside, 64-bit integer fen inside. */
module Money {
  import opened Prelude

  const MAX_INT64: int := 0x7fff_ffff_ffff_ffff
  const MIN_INT64: int := -0x8000_0000_0000_0000

  predicate IsInt64(x: int) {
    MIN_INT64 <= x <= MAX_INT64
  }

  /** Two's complement wrap-around. */
  function Wrap(x: int): (r: int)
    ensures IsInt64(r)
    ensures IsInt64(x) ==> r == x
  {
    var m := x % 0x1_0000_0000_0000_0000;
    if m > MAX_INT64 then m - 0x1_0000_0000_0000_0000 else m
  }

  /** Division and remainder that truncate toward zero. */
  function Quotient(a: int, b: int): int
    requires b > 0
  {
    if a >= 0 then a / b else -(-a / b)
  }

  function Remainder(a: int, b: int): int
    requires b > 0
  {
    a - b * Quotient(a, b)
  }

  // ---- Decimal text ------------------------------------------------------------------------------------

  predicate IsDigit(c: char) {
    '0' <= c <= '9'
  }

  predicate AllDigits(s: string) {
    forall i :: 0 <= i < |s| ==> IsDigit(s[i])
  }

  function DigitChar(d: int): (c: char)
    requires 0 <= d < 10
    ensures IsDigit(c)
  {
    ('0' as int + d) as char
  }

  function Decimal(n: nat): (s: string)
    ensures |s| >= 1 && AllDigits(s)
  {
    if n < 10 then [DigitChar(n)] else Decimal(n / 10) + [DigitChar(n % 10)]
  }

  function Value(s: string): (n: nat)
    requires AllDigits(s)
  {
    if s == "" then 0 else Value(s[..|s| - 1]) * 10 + (s[|s| - 1] as int - '0' as int)
  }

  function FormatInt(x: int): string {
    if x < 0 then "-" + Decimal(-x) else Decimal(x)
  }

  /** A signed decimal integer of 64 bits. */
  function ParseInt(s: string): Option<int> {
    var digits := if s != "" && (s[0] == '+' || s[0] == '-') then s[1..] else s;
    if digits == "" || !AllDigits(digits) then
      None
    else
      var n: int := Value(digits);
      var x := if s[0] == '-' then -n else n;
      if IsInt64(x) then Some(x) else None
  }

  function PadTwo(s: string): string {
    if |s| < 2 then "0" + s else s
  }

  /** `formatFen`. */
  function FormatFen(v: int): string {
    FormatInt(Quotient(v, 100)) + "." + PadTwo(FormatInt(Remainder(v, 100)))
  }

  // ---- Reading an amount ----------------------------------------------------------------------------------

  /** The white space of Unicode. */
  predicate IsSpace(c: char) {
    var p := c as int;
    || 9 <= p <= 13 || p == 0x20 || p == 0x85 || p == 0xA0 || p == 0x1680 || 0x2000 <= p <= 0x200A
    || p == 0x2028 || p == 0x2029 || p == 0x202F || p == 0x205F || p == 0x3000
  }

  function TrimLeft(s: string): string {
    if s != "" && IsSpace(s[0]) then TrimLeft(s[1..]) else s
  }

  function TrimRight(s: string): string {
    if s != "" && IsSpace(s[|s| - 1]) then TrimRight(s[..|s| - 1]) else s
  }

  function Trim(s: string): string {
    TrimRight(TrimLeft(s))
  }

  /** The parts between dots. */
  function Split(s: string): (parts: seq<string>)
    ensures |parts| >= 1
  {
    if s == "" then [""]
    else
      var rest := Split(s[1..]);
      if s[0] == '.' then [""] + rest else [[s[0]] + rest[0]] + rest[1..]
  }

  function PadRight(s: string): string {
    if s == "" then "00" else if |s| == 1 then s + "0" else s
  }

  /** The fen that the text of a fraction means, if it means a non-negative number of them. */
  function FenOf(fraction: string): Option<int> {
    if |fraction| > 2 then None
    else
      var fen := ParseInt(PadRight(fraction));
      if fen.Some? && fen.value >= 0 then fen else None
  }

  /** The amount a text denotes: yuan, optionally a dot and at most two more characters, together
      no more than 64 bits of fen. */
  function Amount(value: string): Option<int> {
    var t := Trim(value);
    var parts := Split(t);
    if t == "" || t[0] == '-' || |parts| > 2 then
      None
    else
      var yuan, fen := ParseInt(parts[0]), FenOf(if |parts| == 2 then parts[1] else "");
      if yuan.None? || fen.None? || yuan.value * 100 + fen.value > MAX_INT64 then None
      else Some(yuan.value * 100 + fen.value)
  }

  /** `parseYuanToFen`, in the arithmetic of the machine. A negative fraction is caught only
      because the subtraction wraps around. */
  method ParseYuanToFen(value: string) returns (result: Option<int>)
    ensures result == Amount(value)
  {
    hide ParseInt, Trim, Split;
    var text := Trim(value);
    if text == "" || text[0] == '-' { return None; }
    var parts := Split(text);
    if |parts| > 2 { return None; }
    FirstPartStarts(text);
    var yuan := ParseInt(parts[0]);
    if yuan.None? || yuan.value > Quotient(MAX_INT64, 100) { return None; }
    var fraction := "";
    if |parts| == 2 { fraction := parts[1]; }
    if |fraction| > 2 { return None; }
    fraction := PadRight(fraction);
    var fen := ParseInt(fraction);
    if fen.None? { return None; }
    FractionIsSmall(fraction);
    result := Combine(yuan.value, fen.value);
  }

  /** The guarded addition at the end; a negative `fen` passes no other check. */
  method Combine(yuan: int, fen: int) returns (result: Option<int>)
    requires 0 <= yuan <= MAX_INT64 / 100 && -9 <= fen <= 99
    ensures result == if fen < 0 || yuan * 100 + fen > MAX_INT64 then None else Some(yuan * 100 + fen)
  {
    WrapsWhenNegative(fen, yuan);
    if yuan > Quotient(Wrap(MAX_INT64 - fen), 100) { return None; }
    return Some(Wrap(Wrap(yuan * 100) + fen));
  }

  /** The guard in front of the addition, for a fraction of either sign. */
  lemma WrapsWhenNegative(fen: int, yuan: int)
    requires -9 <= fen <= 99 && yuan >= 0
    ensures yuan > Quotient(Wrap(MAX_INT64 - fen), 100) <==> fen < 0 || yuan * 100 + fen > MAX_INT64
  {
  }

  /** A text that does not start with a minus sign has a first part that is not negative. */
  lemma {:induction false} FirstPartStarts(text: string)
    requires text != "" && text[0] != '-'
    ensures ParseInt(Split(text)[0]).Some? ==> ParseInt(Split(text)[0]).value >= 0
  {
  }

  lemma FractionIsSmall(s: string)
    requires |s| == 2
    ensures ParseInt(s).Some? ==> -9 <= ParseInt(s).value <= 99
  {
    if ParseInt(s).Some? {
      if s[0] == '+' || s[0] == '-' {
        TwoDigits(s[1..]);
      } else {
        TwoDigits(s);
      }
    }
  }

  lemma {:induction false} TwoDigits(s: string)
    requires AllDigits(s) && 1 <= |s| <= 2
    ensures |s| == 1 ==> Value(s) <= 9
    ensures Value(s) <= 99
  {
    assert s[..|s| - 1][..0] == "";
    assert Value("") == 0;
    if |s| == 2 {
      assert Value(s[..1]) == Value(s[..1][..0]) * 10 + (s[0] as int - '0' as int);
    }
  }

  // ---- Round trip ----------------------------------------------------------------------------------------

  lemma {:induction false} ValueOfDecimal(n: nat)
    ensures Value(Decimal(n)) == n
  {
    if n < 10 {
      assert Decimal(n)[..0] == "";
    } else {
      ValueOfDecimal(n / 10);
      var s := Decimal(n);
      assert s[..|s| - 1] == Decimal(n / 10);
      assert s[|s| - 1] == DigitChar(n % 10);
    }
  }

  lemma ParseFormatted(x: int)
    requires IsInt64(x)
    ensures ParseInt(FormatInt(x)) == Some(x)
  {
    var s := FormatInt(x);
    if x < 0 {
      assert s[1..] == Decimal(-x);
      ValueOfDecimal(-x);
    } else {
      assert IsDigit(s[0]);
      ValueOfDecimal(x);
    }
  }

  predicate DotFree(s: string) {
    forall i :: 0 <= i < |s| ==> s[i] != '.'
  }

  lemma {:induction false} SplitPlain(s: string)
    requires DotFree(s)
    ensures Split(s) == [s]
  {
    if s != "" {
      SplitPlain(s[1..]);
      assert [s[0]] + s[1..] == s;
    }
  }

  lemma {:induction false} SplitAtDot(a: string, b: string)
    requires DotFree(a) && DotFree(b)
    ensures Split(a + "." + b) == [a, b]
  {
    var s := a + "." + b;
    if a == "" {
      assert s[1..] == b;
      SplitPlain(b);
    } else {
      assert s[1..] == a[1..] + "." + b;
      SplitAtDot(a[1..], b);
      assert [s[0]] + a[1..] == a;
    }
  }

  lemma TrimLeavesAlone(s: string)
    requires s != "" && !IsSpace(s[0]) && !IsSpace(s[|s| - 1])
    ensures Trim(s) == s
  {
  }

  /** The fen part of a non-negative amount: two digits, whose value it is. */
  lemma FenText(f: int)
    requires 0 <= f < 100
    ensures
      var s := PadTwo(FormatInt(f));
      |s| == 2 && AllDigits(s) && FenOf(s) == Some(f)
  {
    var s := PadTwo(FormatInt(f));
    ParseFormatted(f);
    if f < 10 {
      var d := DigitChar(f);
      assert s == ['0', d];
      assert s[..1] == "0" && s[..1][..0] == "";
      assert Value("0") == Value("") * 10 + 0;
      assert Value(s) == Value(s[..1]) * 10 + (d as int - '0' as int);
    } else {
      assert Decimal(f) == Decimal(f / 10) + [DigitChar(f % 10)];
      assert Decimal(f / 10) == [DigitChar(f / 10)];
    }
  }

  lemma NegativeFenText(f: int)
    requires -100 < f < 0
    ensures FenOf(PadTwo(FormatInt(f))).None?
    ensures DotFree(PadTwo(FormatInt(f)))
  {
    var s := PadTwo(FormatInt(f));
    ParseFormatted(f);
    assert s == FormatInt(f);
  }

  /** Exact round trip over all 64-bit amounts: printing and reading back returns the amount when
      it is not negative, and is refused when it is. */
  lemma RoundTripExactly(v: int)
    requires IsInt64(v)
    ensures Amount(FormatFen(v)) == if v >= 0 then Some(v) else None
  {
    var yuan, fen := Quotient(v, 100), Remainder(v, 100);
    var a, b := FormatInt(yuan), PadTwo(FormatInt(fen));
    var s := FormatFen(v);
    assert s == a + "." + b;
    ParseFormatted(yuan);
    if v >= 0 {
      FenText(fen);
      assert s[0] == a[0] && s[|s| - 1] == b[1];
      TrimLeavesAlone(s);
      SplitAtDot(a, b);
    } else {
      NegativeRefused(v);
    }
  }

  lemma NegativeRefused(v: int)
    requires MIN_INT64 <= v < 0
    ensures Amount(FormatFen(v)).None?
  {
    var yuan, fen := Quotient(v, 100), Remainder(v, 100);
    var a, b := FormatInt(yuan), PadTwo(FormatInt(fen));
    var s := FormatFen(v);
    assert s == a + "." + b;
    assert s[0] == a[0] && s[|s| - 1] == b[|b| - 1];
    TrimLeavesAlone(s);
    if yuan == 0 {
      NegativeFenText(fen);
      SplitAtDot(a, b);
    } else {
      assert s[0] == '-';
    }
  }

  /** Every accepted text gives a non-negative 64-bit amount. */
  lemma AcceptedAmountsFit(value: string)
    requires Amount(value).Some?
    ensures 0 <= Amount(value).value <= MAX_INT64
  {
    FirstPartStarts(Trim(value));
  }

  /** A sign in the fraction: minus is accepted only in front of nothing or a zero, plus always
      counts as if it were not there. */
  lemma SignedFractionExactly(sign: char, digits: string)
    requires (sign == '-' || sign == '+') && |digits| <= 1 && AllDigits(digits)
    ensures FenOf([sign] + digits).Some? <==> sign == '+' || digits == "" || digits == "0"
    ensures sign == '+' && |digits| == 1 ==> FenOf([sign] + digits) == Some(digits[0] as int - '0' as int)
  {
    var s := PadRight([sign] + digits);
    assert s[1..] == if digits == "" then "0" else digits;
    assert s[1..][..0] == "";
    assert Value("") == 0;
    assert Value(s[1..]) == s[1] as int - '0' as int;
  }
}
