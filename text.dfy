/** Character classes, decimal rendering and parsing, and the string
    operations of Rust's standard library that the client relies on
    (`u32::from_str`, `u64`'s `Display`, `trim_end_matches('/')`,
    `to_ascii_uppercase`/`to_ascii_lowercase`). */
module Text {
  import opened Wrappers

  const U32_MAX: nat := 0xFFFF_FFFF
  const U64_MAX: nat := 0xFFFF_FFFF_FFFF_FFFF

  /** Rust's `u32`. */
  type U32 = n: nat | n <= U32_MAX

  /** Rust's `u64`. */
  type U64 = n: nat | n <= U64_MAX

  /** Rust's `u8`. */
  type U8 = n: nat | n <= 255

  predicate IsAsciiDigit(c: char) {
    '0' <= c <= '9'
  }

  /** `char::is_ascii_alphanumeric` */
  predicate IsAsciiAlphanumeric(c: char) {
    ('a' <= c <= 'z') || ('A' <= c <= 'Z') || IsAsciiDigit(c)
  }

  predicate AllDigits(s: string) {
    forall i :: 0 <= i < |s| ==> IsAsciiDigit(s[i])
  }

  predicate AllAlphanumeric(s: string) {
    forall i :: 0 <= i < |s| ==> IsAsciiAlphanumeric(s[i])
  }

  function DigitChar(d: nat): (c: char)
    requires d < 10
    ensures IsAsciiDigit(c) && c as int - '0' as int == d
  {
    (('0' as int) + d) as char
  }

  function DigitValue(c: char): (d: nat)
    requires IsAsciiDigit(c)
    ensures d < 10 && DigitChar(d) == c
  {
    c as int - '0' as int
  }

  /** Decimal rendering of a natural number, as `Display` prints an unsigned
      integer: no sign, no leading zeros. */
  function DecimalString(n: nat): (s: string)
    ensures |s| >= 1 && AllDigits(s)
    ensures s[0] == '0' ==> n == 0
  {
    if n < 10 then [DigitChar(n)] else DecimalString(n / 10) + [DigitChar(n % 10)]
  }

  /** The value of a string of decimal digits, most significant first. */
  function DigitsValue(s: string): nat
    requires AllDigits(s)
  {
    if s == [] then 0 else DigitsValue(s[..|s| - 1]) * 10 + DigitValue(s[|s| - 1])
  }

  /** Reading back what DecimalString printed gives the number again. */
  lemma {:induction false} DigitsValueOfDecimal(n: nat)
    ensures DigitsValue(DecimalString(n)) == n
  {
    var s := DecimalString(n);
    if n < 10 {
      assert s[..|s| - 1] == [];
    } else {
      DigitsValueOfDecimal(n / 10);
      assert s[..|s| - 1] == DecimalString(n / 10);
      assert s[|s| - 1] == DigitChar(n % 10);
    }
  }

  /** Distinct numbers print differently. */
  lemma DecimalStringInjective(m: nat, n: nat)
    ensures DecimalString(m) == DecimalString(n) ==> m == n
  {
    DigitsValueOfDecimal(m);
    DigitsValueOfDecimal(n);
  }

  /** `str::parse::<u32>`: an optional leading `+`, then at least one ASCII
      digit and nothing else, with a value that fits in 32 bits. A `-` sign,
      an empty string and a lone `+` are rejected. */
  function ParseU32(s: string): (r: Option<U32>)
    ensures r.Some? ==> exists d :: d <= s && AllDigits(s[|d|..]) && (d == "" || d == "+")
    ensures var t := if |s| > 0 && s[0] == '+' then s[1..] else s;
      r.Some? <==> t != [] && AllDigits(t) && DigitsValue(t) <= U32_MAX
    ensures var t := if |s| > 0 && s[0] == '+' then s[1..] else s;
      r.Some? ==> AllDigits(t) && r.value == DigitsValue(t)
  {
    var digits := if |s| > 0 && s[0] == '+' then s[1..] else s;
    if digits == [] || !AllDigits(digits) then None
    else if DigitsValue(digits) > U32_MAX then None
    else Some(DigitsValue(digits))
  }

  /** A sign other than `+` is never accepted, so no text parses to a
      negative number. */
  lemma ParseU32RejectsMinus(s: string)
    ensures ParseU32("-" + s) == None
  {
    assert ("-" + s)[0] == '-' && !IsAsciiDigit('-');
  }

  /** Printing a 32-bit value and parsing it back gives the value again. */
  lemma ParseU32OfDecimal(n: nat)
    requires n <= U32_MAX
    ensures ParseU32(DecimalString(n)) == Some(n)
  {
    DigitsValueOfDecimal(n);
  }

  /** `str::trim_end_matches('/')`: drop every trailing slash. */
  function TrimTrailingSlashes(s: string): (r: string)
    ensures r <= s
    ensures |r| == 0 || r[|r| - 1] != '/'
    ensures forall i :: |r| <= i < |s| ==> s[i] == '/'
  {
    if |s| > 0 && s[|s| - 1] == '/' then TrimTrailingSlashes(s[..|s| - 1]) else s
  }

  /** `str::starts_with` */
  predicate StartsWith(s: string, prefix: string) {
    prefix <= s
  }

  /** `str::ends_with` */
  predicate EndsWith(s: string, suffix: string) {
    |suffix| <= |s| && s[|s| - |suffix|..] == suffix
  }

  function AsciiUpper(c: char): char {
    if 'a' <= c <= 'z' then (c as int - 32) as char else c
  }

  function AsciiLower(c: char): char {
    if 'A' <= c <= 'Z' then (c as int + 32) as char else c
  }

  /** `str::to_ascii_uppercase`, the rule behind serde's `rename_all = "UPPERCASE"`. */
  function ToAsciiUpper(s: string): (r: string)
    ensures |r| == |s|
    ensures forall i :: 0 <= i < |s| ==> r[i] == AsciiUpper(s[i])
  {
    if s == [] then [] else [AsciiUpper(s[0])] + ToAsciiUpper(s[1..])
  }

  /** `str::to_ascii_lowercase`, the rule behind serde's `rename_all = "lowercase"`. */
  function ToAsciiLower(s: string): (r: string)
    ensures |r| == |s|
    ensures forall i :: 0 <= i < |s| ==> r[i] == AsciiLower(s[i])
  {
    if s == [] then [] else [AsciiLower(s[0])] + ToAsciiLower(s[1..])
  }
}
