/** Vocabulary shared by every component: optional columns, instants, identifiers,
    symbolic digests and the text checks the rows are guarded by. */
module Prelude {

  datatype Option<+T> = None | Some(value: T)

  /** An instant or a duration in microseconds, the resolution of the stored timestamps. */
  type Time = int

  const SECOND: Time := 1_000_000
  const DAY: Time := 86_400 * SECOND

  /** Primary keys are canonical UUID text; only their identity matters. */
  type Uuid = nat

  type Byte = b: int | 0 <= b < 256

  type Bytes = seq<Byte>

  /** SHA-256 as an injective function of the digested text. A digest received from a
      worker is either the digest of some text, or malformed (not 64 hexadecimal digits). */
  datatype Digest = Sha256(text: string) | Malformed

  function Min(a: int, b: int): int {
    if a <= b then a else b
  }

  function Max(a: int, b: int): int {
    if a <= b then b else a
  }

  function Pow2(n: nat): nat {
    if n == 0 then 1 else 2 * Pow2(n - 1)
  }

  lemma Pow2Monotone(m: nat, n: nat)
    requires m <= n
    ensures 1 <= Pow2(m) <= Pow2(n)
  {
    if m < n {
      Pow2Monotone(m, n - 1);
    } else if m > 0 {
      Pow2Monotone(m - 1, n - 1);
    }
  }

  /** Seconds before retry number `exponent`, doubling from `base` up to `max`, with the exponent capped. */
  function Backoff(base: nat, max: nat, exponent: nat, cap: nat): nat {
    Min(max, base * Pow2(Min(exponent, cap))) as nat
  }

  predicate IsHexDigit(c: char) {
    '0' <= c <= '9' || 'a' <= c <= 'f'
  }

  predicate IsHex(s: string) {
    forall i :: 0 <= i < |s| ==> IsHexDigit(s[i])
  }

  predicate IsHex64(s: string) {
    |s| == 64 && IsHex(s)
  }

  /** A lower-case SHA-1 or SHA-256 object name. */
  predicate IsCommit(s: string) {
    (|s| == 40 || |s| == 64) && IsHex(s)
  }

  function LowerChar(c: char): char {
    if 'A' <= c <= 'Z' then c - 'A' + 'a' else c
  }

  function Lower(s: string): string {
    seq(|s|, i requires 0 <= i < |s| => LowerChar(s[i]))
  }

  /** Object names are compared in lower case; anything else is refused. */
  function NormalizeCommit(s: string): Option<string> {
    if IsCommit(Lower(s)) then Some(Lower(s)) else None
  }

  /** Python's `str.isspace` for one character, which is also what `str.strip` removes. */
  predicate IsSpace(c: char) {
    var n := c as int;
    9 <= n <= 13 || 28 <= n <= 32 || n in {0x85, 0xA0, 0x1680, 0x2028, 0x2029, 0x202F, 0x205F, 0x3000}
        || 0x2000 <= n <= 0x200A
  }

  predicate IsBlank(s: string) {
    forall i :: 0 <= i < |s| ==> IsSpace(s[i])
  }

  /** Python's `str.strip`. */
  function Strip(s: string): string {
    if s == [] then s
    else if IsSpace(s[0]) then Strip(s[1..])
    else if IsSpace(s[|s| - 1]) then Strip(s[..|s| - 1])
    else s
  }

  /** Length of the UTF-8 encoding. */
  function Utf8Length(s: string): nat {
    if s == [] then 0 else Utf8Length(s[..|s| - 1]) + Utf8Width(s[|s| - 1])
  }

  function Utf8Width(c: char): nat {
    var n := c as int;
    if n < 0x80 then 1 else if n < 0x800 then 2 else if n < 0x10000 then 3 else 4
  }
}
