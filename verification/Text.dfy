/** Text as the plugin uses it: decimal numbers (`std::to_string`, `std::stoi`) and
    separator-joined fields. Every storage key and every "mode_format_source" set key of the
    plugin is such a join, so this module proves once that joins of separator-free fields,
    and decimal numbers, can be told apart. */
module Text {

  datatype Option<+T> = None | Some(value: T)

  const INT_MIN: int := -0x8000_0000
  const INT_MAX: int := 0x7fff_ffff

  predicate IsInt32(i: int) { INT_MIN <= i <= INT_MAX }

  // ---------------------------------------------------------------- decimal numbers

  function Digit(d: nat): char
    requires d < 10
  {
    "0123456789"[d]
  }

  predicate IsDigit(c: char) { '0' <= c <= '9' }

  function DigitValue(c: char): nat
    requires IsDigit(c)
  {
    c as int - '0' as int
  }

  lemma DigitRoundTrip(d: nat)
    requires d < 10
    ensures IsDigit(Digit(d)) && DigitValue(Digit(d)) == d
  {
    assert d == 0 || d == 1 || d == 2 || d == 3 || d == 4 || d == 5 || d == 6 || d == 7 || d == 8 || d == 9;
  }

  function NatText(n: nat): string {
    if n < 10 then [Digit(n)] else NatText(n / 10) + [Digit(n % 10)]
  }

  /** `std::to_string` on an int. */
  function IntText(i: int): string {
    if i < 0 then "-" + NatText(-i) else NatText(i)
  }

  predicate AllDigits(s: string) { forall i :: 0 <= i < |s| ==> IsDigit(s[i]) }

  function NumberOf(s: string): nat
    requires AllDigits(s)
  {
    if s == "" then 0 else 10 * NumberOf(s[..|s| - 1]) + DigitValue(s[|s| - 1])
  }

  lemma {:induction false} NatTextIsNumber(n: nat)
    ensures |NatText(n)| > 0 && AllDigits(NatText(n)) && NumberOf(NatText(n)) == n
  {
    if n < 10 {
      DigitRoundTrip(n);
      assert NatText(n)[..0] == "";
    } else {
      NatTextIsNumber(n / 10);
      DigitRoundTrip(n % 10);
      var t := NatText(n);
      assert t[..|t| - 1] == NatText(n / 10);
    }
  }

  predicate IsSpace(c: char) { c == ' ' || '\t' <= c <= '\r' }

  function SkipSpaces(s: string): string {
    if s != "" && IsSpace(s[0]) then SkipSpaces(s[1..]) else s
  }

  /** Length of the longest prefix of digits. */
  function DigitRun(s: string): (k: nat)
    ensures k <= |s| && AllDigits(s[..k])
    ensures k < |s| ==> !IsDigit(s[k])
  {
    if s != "" && IsDigit(s[0]) then
      var k := 1 + DigitRun(s[1..]);
      assert forall i :: 0 < i < k ==> s[i] == s[1..][i - 1];
      k
    else 0
  }

  /** `std::stoi`: leading blanks, an optional sign, then digits; whatever follows the digits
      is ignored. None stands for the exceptions invalid_argument and out_of_range. */
  function Stoi(s: string): Option<int> { Signed(SkipSpaces(s)) }

  function Signed(t: string): Option<int> {
    if t != "" && (t[0] == '-' || t[0] == '+') then Unsigned(t[1..], t[0] == '-') else Unsigned(t, false)
  }

  function Unsigned(u: string, negative: bool): Option<int> {
    var k := DigitRun(u);
    var n: int := NumberOf(u[..k]);
    var v := if negative then -n else n;
    if k > 0 && IsInt32(v) then Some(v) else None
  }

  /** What `std::to_string` writes, `std::stoi` reads back. */
  lemma StoiRoundTrip(i: int)
    requires IsInt32(i)
    ensures Stoi(IntText(i)) == Some(i)
  {
    var n := if i < 0 then -i else i;
    NatTextIsNumber(n);
    var u := NatText(n);
    assert IsDigit(u[0]);
    assert DigitRun(u) == |u| && u[..|u|] == u;
    var t := IntText(i);
    assert SkipSpaces(t) == t;
    assert i < 0 ==> t[1..] == u;
  }

  /** The text of a number is its sign, if negative, and its digits without leading zeros. */
  lemma IntTextIsCanonical(i: int)
    ensures
      var digits := if i < 0 then IntText(i)[1..] else IntText(i);
      && (i < 0 ==> IntText(i)[0] == '-')
      && digits != "" && AllDigits(digits) && NumberOf(digits) == (if i < 0 then -i else i)
      && (digits[0] == '0' ==> digits == "0")
  {
    var n := if i < 0 then -i else i;
    NatTextIsNumber(n);
    NoLeadingZero(n);
  }

  lemma {:induction false} NoLeadingZero(n: nat)
    ensures NatText(n)[0] == '0' ==> NatText(n) == "0"
  {
    NatTextIsNumber(n);
    if n >= 10 {
      NatTextIsNumber(n / 10);
      NoLeadingZero(n / 10);
      DigitRoundTrip(n / 10 % 10);
      assert "0"[..0] == "" && NumberOf("0") == 0;
    } else {
      assert n == 0 || n == 1 || n == 2 || n == 3 || n == 4 || n == 5 || n == 6 || n == 7 || n == 8 || n == 9;
    }
  }

  /** Leading zeros do not count. */
  lemma {:induction false} LeadingZero(s: string)
    requires AllDigits(s)
    ensures AllDigits("0" + s) && NumberOf("0" + s) == NumberOf(s)
  {
    var t := "0" + s;
    if s == "" {
      assert t[..0] == "";
    } else {
      LeadingZero(s[..|s| - 1]);
      assert t[..|t| - 1] == "0" + s[..|s| - 1];
    }
  }

  lemma {:induction false} SkipsSpaces(blanks: string, t: string)
    requires (forall i :: 0 <= i < |blanks| ==> IsSpace(blanks[i])) && (t == "" || !IsSpace(t[0]))
    ensures SkipSpaces(blanks + t) == t
  {
    if blanks == "" {
      assert blanks + t == t;
    } else {
      assert (blanks + t)[1..] == blanks[1..] + t;
      SkipsSpaces(blanks[1..], t);
    }
  }

  lemma RunOfDigits(digits: string, rest: string)
    requires AllDigits(digits) && (rest == "" || !IsDigit(rest[0]))
    ensures DigitRun(digits + rest) == |digits|
  {
    var s, k := digits + rest, DigitRun(digits + rest);
    assert forall i :: 0 <= i < |digits| ==> s[i] == digits[i];
    assert rest != "" ==> s[|digits|] == rest[0];
    assert forall i :: 0 <= i < k ==> s[..k][i] == s[i];
  }

  lemma DigitsAreRead(digits: string, rest: string, negative: bool)
    requires AllDigits(digits) && (rest == "" || !IsDigit(rest[0]))
    ensures Unsigned(digits + rest, negative)
            == var n: int := NumberOf(digits);
               var v := if negative then -n else n;
               if digits != "" && IsInt32(v) then Some(v) else None
  {
    RunOfDigits(digits, rest);
    assert (digits + rest)[..|digits|] == digits;
  }

  lemma SignIsRead(sign: string, u: string)
    requires sign == "+" || sign == "-" || (sign == "" && (u == "" || (u[0] != '+' && u[0] != '-')))
    ensures Signed(sign + u) == Unsigned(u, sign == "-")
  {
    if sign == "" { assert sign + u == u; } else { assert (sign + u)[0] == sign[0] && (sign + u)[1..] == u; }
  }

  lemma BlanksAreSkipped(blanks: string, sign: string, u: string)
    requires (forall i :: 0 <= i < |blanks| ==> blanks[i] == ' ' || '\t' <= blanks[i] <= '\r')
    requires sign == "+" || sign == "-" || (sign == "" && (u == "" || !IsSpace(u[0])))
    ensures Stoi(blanks + (sign + u)) == Signed(sign + u)
  {
    if sign == "" { assert sign + u == u; }
    SkipsSpaces(blanks, sign + u);
  }

  /** `std::stoi` on a text with digits where it looks for them: blanks before and anything after are
      ignored, and a number that does not fit in an int is refused. */
  lemma StoiAccepts(blanks: string, sign: string, digits: string, rest: string)
    requires (forall i :: 0 <= i < |blanks| ==> blanks[i] == ' ' || '\t' <= blanks[i] <= '\r') && sign in ["", "+", "-"]
    requires digits != "" && AllDigits(digits) && (rest == "" || !('0' <= rest[0] <= '9'))
    ensures Stoi(blanks + (sign + (digits + rest)))
            == var n: int := NumberOf(digits);
               var v := if sign == "-" then -n else n;
               if -0x8000_0000 <= v <= 0x7fff_ffff then Some(v) else None
  {
    var u := digits + rest;
    assert u[0] == digits[0];
    BlanksAreSkipped(blanks, sign, u);
    SignIsRead(sign, u);
    DigitsAreRead(digits, rest, sign == "-");
  }

  /** And on a text without. */
  lemma StoiRejects(blanks: string, sign: string, rest: string)
    requires (forall i :: 0 <= i < |blanks| ==> blanks[i] == ' ' || '\t' <= blanks[i] <= '\r') && sign in ["", "+", "-"]
    requires rest == "" || !('0' <= rest[0] <= '9')
    requires rest == "" || sign != "" || !(rest[0] == ' ' || '\t' <= rest[0] <= '\r' || rest[0] == '+' || rest[0] == '-')
    ensures Stoi(blanks + (sign + rest)) == None
  {
    BlanksAreSkipped(blanks, sign, rest);
    SignIsRead(sign, rest);
    DigitsAreRead("", rest, sign == "-");
    assert "" + rest == rest;
  }

  lemma IntTextInjective(i: int, j: int)
    requires IntText(i) == IntText(j)
    ensures i == j
  {
    NatTextIsNumber(if i < 0 then -i else i);
    NatTextIsNumber(if j < 0 then -j else j);
    assert i < 0 <==> IntText(i)[0] == '-';
    assert j < 0 <==> IntText(j)[0] == '-';
    if i < 0 {
      assert NatText(-i) == IntText(i)[1..] == IntText(j)[1..] == NatText(-j);
    }
  }

  lemma IntTextHasNo(i: int, c: char)
    requires !IsDigit(c) && c != '-'
    ensures c !in IntText(i)
  {
    NatTextIsNumber(if i < 0 then -i else i);
  }

  // ---------------------------------------------------------------- joined fields

  function Join(parts: seq<string>, sep: char): string
    requires |parts| > 0
  {
    if |parts| == 1 then parts[0] else parts[0] + [sep] + Join(parts[1..], sep)
  }

  predicate Free(parts: seq<string>, sep: char) {
    forall i :: 0 <= i < |parts| ==> sep !in parts[i]
  }

  /** A rest is what may follow a field: nothing, or the separator and more. */
  predicate IsRest(r: string, sep: char) { r == "" || r[0] == sep }

  lemma FirstFieldUnique(x: string, r: string, y: string, s: string, sep: char)
    requires sep !in x && sep !in y && IsRest(r, sep) && IsRest(s, sep)
    requires x + r == y + s
    ensures x == y && r == s
  {
    var t := x + r;
    FieldNotLonger(t, x, r, y, s, sep);
    FieldNotLonger(t, y, s, x, r, sep);
    assert x == t[..|x|] && y == t[..|y|] && r == t[|x|..] && s == t[|y|..];
  }

  lemma FieldNotLonger(t: string, x: string, r: string, y: string, s: string, sep: char)
    requires t == x + r == y + s
    requires sep !in y && IsRest(r, sep)
    ensures |y| <= |x|
  {
    assert t[..|y|] == y;
    assert |x| < |t| ==> t[|x|] == r[0];
  }

  function RestOf(parts: seq<string>, sep: char): string
    requires |parts| > 0
  {
    if |parts| == 1 then "" else [sep] + Join(parts[1..], sep)
  }

  lemma FirstField(parts: seq<string>, sep: char)
    requires |parts| > 0
    ensures Join(parts, sep) == parts[0] + RestOf(parts, sep)
    ensures IsRest(RestOf(parts, sep), sep) && (RestOf(parts, sep) == "" <==> |parts| == 1)
    ensures |parts| > 1 ==> Join(parts[1..], sep) == RestOf(parts, sep)[1..]
  {
    if |parts| > 1 {
      var rest := Join(parts[1..], sep);
      assert ([sep] + rest)[1..] == rest;
      assert parts[0] + [sep] + rest == parts[0] + ([sep] + rest);
    }
  }

  lemma SameFirstField(a: seq<string>, b: seq<string>, sep: char)
    requires |a| > 0 && |b| > 0 && Free(a, sep) && Free(b, sep)
    requires Join(a, sep) == Join(b, sep)
    ensures a[0] == b[0] && (|a| == 1 <==> |b| == 1)
    ensures |a| > 1 && |b| > 1 ==> Join(a[1..], sep) == Join(b[1..], sep)
  {
    FirstField(a, sep);
    FirstField(b, sep);
    FirstFieldUnique(a[0], RestOf(a, sep), b[0], RestOf(b, sep), sep);
  }

  /** Separator-free fields can be read back from their join: different lists of fields, of any
      lengths, give different texts. */
  lemma {:induction false} JoinInjective(a: seq<string>, b: seq<string>, sep: char)
    requires |a| > 0 && |b| > 0 && Free(a, sep) && Free(b, sep)
    requires Join(a, sep) == Join(b, sep)
    ensures a == b
  {
    SameFirstField(a, b, sep);
    if |a| > 1 { JoinInjective(a[1..], b[1..], sep); }
    assert a == [a[0]] + a[1..] && b == [b[0]] + b[1..];
  }
}
