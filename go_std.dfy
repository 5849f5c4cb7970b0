/** The pieces of Go's standard library whose exact behaviour the backend
    depends on: `strconv.Atoi`, `strconv.Itoa` (and `fmt`'s `%d`) on
    non-negative numbers, `filepath.Ext` on slash-separated paths, and `len`
    on a string, which counts UTF-8 bytes rather than characters. */
module GoStd {
  import opened Wrappers

  /** The range of Go's `int` on the 64-bit targets the backend is built for. */
  const MinInt: int := -0x8000_0000_0000_0000
  const MaxInt: int := 0x7FFF_FFFF_FFFF_FFFF

  predicate IsDigit(c: char) {
    '0' <= c <= '9'
  }

  predicate AllDigits(s: string) {
    forall i :: 0 <= i < |s| ==> IsDigit(s[i])
  }

  function DigitChar(d: nat): (c: char)
    requires d < 10
    ensures IsDigit(c) && c as int - '0' as int == d
  {
    ('0' as int + d) as char
  }

  /** The number a string of decimal digits denotes, read left to right. */
  function DigitsValue(s: string): nat
    requires AllDigits(s)
  {
    if s == [] then 0 else DigitsValue(s[..|s| - 1]) * 10 + (s[|s| - 1] as int - '0' as int)
  }

  /** `strconv.Itoa(n)` for `n >= 0`: the shortest decimal numeral of `n`. */
  function Itoa(n: nat): (s: string)
    ensures |s| > 0 && AllDigits(s)
    ensures DigitsValue(s) == n
    ensures s[0] == '0' ==> s == "0"
  {
    if n < 10 then [DigitChar(n)]
    else
      var front := Itoa(n / 10);
      var s := front + [DigitChar(n % 10)];
      assert s[..|s| - 1] == front;
      s
  }

  /** A numeral without its sign, if it has one. */
  function Unsigned(s: string): string
    requires s != []
  {
    if s[0] == '-' || s[0] == '+' then s[1..] else s
  }

  /** At least one ASCII digit, after an optional sign. */
  predicate IsNumeral(s: string) {
    s != [] && Unsigned(s) != [] && AllDigits(Unsigned(s))
  }

  /** The value of a decimal numeral with an optional sign. */
  function SignedValue(s: string): int
    requires IsNumeral(s)
  {
    if s[0] == '-' then -(DigitsValue(Unsigned(s)) as int) else DigitsValue(Unsigned(s))
  }

  /** `strconv.Atoi(s)`: an optional sign and at least one ASCII digit, whose
      value must fit Go's 64-bit `int`; anything else is a syntax or range
      error, modelled as `None`. */
  function Atoi(s: string): (r: Option<int>)
    ensures r.Some? ==> MinInt <= r.value <= MaxInt
    ensures r.Some? ==> |s| > 0 && (IsDigit(s[0]) || s[0] == '-' || s[0] == '+')
    ensures r.Some? <==> IsNumeral(s) && MinInt <= SignedValue(s) <= MaxInt
    ensures r.Some? ==> r.value == SignedValue(s)
  {
    if s == [] then None
    else
      var digits := if s[0] == '-' || s[0] == '+' then s[1..] else s;
      if digits == [] || !AllDigits(digits) then None
      else
        var v: int := if s[0] == '-' then -(DigitsValue(digits) as int) else DigitsValue(digits);
        if MinInt <= v <= MaxInt then Some(v) else None
  }

  /** Reading back what `Itoa` wrote gives the number again. */
  lemma AtoiItoa(n: nat)
    requires n <= MaxInt
    ensures Atoi(Itoa(n)) == Some(n)
  {
  }

  /** `strconv.Itoa` on any 64-bit `int`: a minus sign before a negative
      number's magnitude. */
  function FormatInt(n: int): (s: string)
    ensures s != [] && (n < 0 <==> s[0] == '-')
  {
    if n < 0 then "-" + Itoa(-n) else Itoa(n)
  }

  /** Every 64-bit `int` survives formatting and parsing, the most negative
      one included, and an explicit '+' is accepted too. */
  lemma AtoiFormatInt(n: int)
    requires MinInt <= n <= MaxInt
    ensures Atoi(FormatInt(n)) == Some(n)
    ensures n >= 0 ==> Atoi("+" + Itoa(n)) == Some(n)
  {
    if n < 0 {
      var s := "-" + Itoa(-n);
      assert s[1..] == Itoa(-n);
    } else {
      var s := "+" + Itoa(n);
      assert s[1..] == Itoa(n);
    }
  }

  /** `filepath.Ext(path)`: the suffix that starts at the last '.' of the
      final '/'-separated element, or "" when that element has no '.'. */
  function Ext(path: string): (e: string)
    ensures |e| <= |path| && e == path[|path| - |e|..]
    ensures e != [] ==> e[0] == '.' && forall i :: 1 <= i < |e| ==> e[i] != '.' && e[i] != '/'
    ensures e == [] ==> forall i :: 0 <= i < |path| && path[i] == '.' ==> '/' in path[i + 1..]
  {
    if path == [] then []
    else
      var last := path[|path| - 1];
      if last == '/' then []
      else if last == '.' then [last]
      else
        var front := path[..|path| - 1];
        var e := Ext(front);
        if e == [] then [] else e + [last]
  }

  /** `strings.TrimSuffix(s, suffix)`: `s` without `suffix` when it ends
      with it, `s` unchanged otherwise. */
  function TrimSuffix(s: string, suffix: string): (r: string)
    ensures if |suffix| <= |s| && s[|s| - |suffix|..] == suffix then r + suffix == s else r == s
  {
    if |suffix| <= |s| && s[|s| - |suffix|..] == suffix then s[..|s| - |suffix|] else s
  }

  /** The number of bytes `c` takes in UTF-8. */
  function RuneLen(c: char): (n: nat)
    ensures 1 <= n <= 4
    ensures n == 1 <==> c as int < 0x80
  {
    if c as int < 0x80 then 1
    else if c as int < 0x800 then 2
    else if c as int < 0x10000 then 3
    else 4
  }

  /** Go's `len(s)`: the length of the UTF-8 encoding of `s`. */
  function Utf8Len(s: string): (n: nat)
    ensures |s| <= n <= 4 * |s|
  {
    if s == [] then 0 else RuneLen(s[0]) + Utf8Len(s[1..])
  }

  /** On ASCII text Go's byte length is the character count. */
  lemma {:induction false} AsciiUtf8Len(s: string)
    requires forall i :: 0 <= i < |s| ==> s[i] as int < 0x80
    ensures Utf8Len(s) == |s|
  {
    if s != [] {
      AsciiUtf8Len(s[1..]);
    }
  }
}
