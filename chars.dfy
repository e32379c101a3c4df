/** Character-level helpers shared by the argument scanner: C-string access,
    decimal digits and ASCII case-insensitive comparison. */
module CharUtil {

  datatype Option<T> = None | Some(value: T)

  /** The terminating NUL of a C string. */
  const NUL: char := '\0'

  /** A process argument is a C string: it holds no NUL character. */
  predicate NoNul(s: string)
  {
    forall i :: 0 <= i < |s| ==> s[i] != NUL
  }

  predicate AllNoNul(args: seq<string>)
  {
    forall i :: 0 <= i < |args| ==> NoNul(args[i])
  }

  /** `s[k]` as C reads it: the character, or NUL at and past the end. */
  function CharAt(s: string, k: int): char
  {
    if 0 <= k < |s| then s[k] else NUL
  }

  predicate IsDigit(c: char)
  {
    '0' <= c <= '9'
  }

  predicate AllDigits(s: string)
  {
    forall i :: 0 <= i < |s| ==> IsDigit(s[i])
  }

  function DigitValue(c: char): nat
    requires IsDigit(c)
  {
    (c as int) - ('0' as int)
  }

  /** The value of a non-empty or empty run of decimal digits, most significant first. */
  function Decimal(d: string): nat
    requires AllDigits(d)
    decreases |d|
  {
    if d == [] then 0 else 10 * Decimal(d[..|d| - 1]) + DigitValue(d[|d| - 1])
  }

  /** ASCII lower-casing, the case folding used for long option names. */
  function Lower(c: char): char
  {
    if 'A' <= c <= 'Z' then ((c as int) + 32) as char else c
  }

  /** `STRICMP(a, b) == 0`. */
  predicate EqualsIgnoreCase(a: string, b: string)
  {
    |a| == |b| && forall i :: 0 <= i < |a| ==> Lower(a[i]) == Lower(b[i])
  }

  /** `STRNICMP(s, prefix, |prefix|) == 0`: `s` starts with `prefix`, ignoring case. */
  predicate HasPrefixIgnoreCase(s: string, prefix: string)
  {
    |prefix| <= |s| && EqualsIgnoreCase(s[..|prefix|], prefix)
  }
}
