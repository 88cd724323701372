/** Strict UTF-8, as `bytes.decode("utf-8", errors="strict")` and `str.encode("utf-8")`. */
module Utf8 {
  import opened Prelude
  import opened Json

  function EncodeCode(c: Code): (b: Bytes)
    ensures b != []
  {
    if c < 0x80 then [c]
    else if c < 0x800 then [0xC0 + c / 64, 0x80 + c % 64]
    else if c < 0x1_0000 then [0xE0 + c / 4096, 0x80 + c / 64 % 64, 0x80 + c % 64]
    else [0xF0 + c / 262_144, 0x80 + c / 4096 % 64, 0x80 + c / 64 % 64, 0x80 + c % 64]
  }

  function Encode(t: Text): Bytes {
    if t == [] then [] else EncodeCode(t[0]) + Encode(t[1..])
  }

  predicate IsTail(b: Byte) {
    0x80 <= b < 0xC0
  }

  /** The bits a byte contributes once its mark is taken off. */
  function Bits(b: Byte, mark: int): int {
    b as int - mark
  }

  function Two(b: Bytes): int
    requires |b| >= 2
  {
    Bits(b[0], 0xC0) * 64 + Bits(b[1], 0x80)
  }

  function Three(b: Bytes): int
    requires |b| >= 3
  {
    Bits(b[0], 0xE0) * 4096 + Bits(b[1], 0x80) * 64 + Bits(b[2], 0x80)
  }

  function Four(b: Bytes): int
    requires |b| >= 4
  {
    Bits(b[0], 0xF0) * 262_144 + Bits(b[1], 0x80) * 4096 + Bits(b[2], 0x80) * 64 + Bits(b[3], 0x80)
  }

  /** The first character and the number of bytes it takes; overlong forms, surrogates and values past
      U+10FFFF are malformed. */
  function First(b: Bytes): (r: Option<(Code, nat)>)
    ensures r.Some? ==> 1 <= r.value.1 <= |b|
  {
    if b == [] then None
    else if b[0] < 0x80 then Some((b[0] as int, 1))
    else if 0xC2 <= b[0] < 0xE0 && |b| >= 2 && IsTail(b[1]) then Some((Two(b), 2))
    else if 0xE0 <= b[0] < 0xF0 && |b| >= 3 && IsTail(b[1]) && IsTail(b[2]) then
      if Three(b) < 0x800 || 0xD800 <= Three(b) <= 0xDFFF then None else Some((Three(b), 3))
    else if 0xF0 <= b[0] < 0xF5 && |b| >= 4 && IsTail(b[1]) && IsTail(b[2]) && IsTail(b[3]) then
      if Four(b) < 0x1_0000 || Four(b) >= 0x11_0000 then None else Some((Four(b), 4))
    else None
  }

  function Decode(b: Bytes): Option<Text> {
    if b == [] then Some([])
    else
      match First(b)
      case None => None
      case Some((c, n)) =>
        match Decode(b[n..])
        case None => None
        case Some(t) => Some([c] + t)
  }

  lemma Splits(c: nat)
    ensures c == c / 64 * 64 + c % 64
    ensures c / 64 == c / 4096 * 64 + c / 64 % 64
    ensures c / 4096 == c / 262_144 * 64 + c / 4096 % 64
  {
    assert c / 4096 == c / 64 / 64;
    assert c / 262_144 == c / 4096 / 64;
  }

  lemma TwoReads(c: Code)
    requires 0x80 <= c < 0x800
    ensures var b := EncodeCode(c); |b| == 2 && Two(b) == c && 0xC2 <= b[0] < 0xE0 && IsTail(b[1])
  {
    Splits(c);
  }

  lemma ThreeReads(c: Code)
    requires 0x800 <= c < 0x1_0000
    ensures var b := EncodeCode(c); |b| == 3 && Three(b) == c && 0xE0 <= b[0] < 0xF0 && IsTail(b[1]) && IsTail(b[2])
  {
    Splits(c);
  }

  lemma FourReads(c: Code)
    requires 0x1_0000 <= c
    ensures var b := EncodeCode(c);
            |b| == 4 && Four(b) == c && 0xF0 <= b[0] < 0xF5 && IsTail(b[1]) && IsTail(b[2]) && IsTail(b[3])
  {
    Splits(c);
  }

  lemma FirstReads(c: Code, rest: Bytes)
    requires !IsSurrogate(c)
    ensures First(EncodeCode(c) + rest) == Some((c, |EncodeCode(c)|))
  {
    var b := EncodeCode(c) + rest;
    assert forall i :: 0 <= i < |EncodeCode(c)| ==> b[i] == EncodeCode(c)[i];
    if c < 0x80 {
    } else if c < 0x800 {
      TwoReads(c);
    } else if c < 0x1_0000 {
      ThreeReads(c);
    } else {
      FourReads(c);
    }
  }

  lemma {:induction false} DecodesBack(t: Text)
    requires Encodable(t)
    ensures Decode(Encode(t)) == Some(t)
  {
    if t != [] {
      FirstReads(t[0], Encode(t[1..]));
      DecodesBack(t[1..]);
      RestReads(EncodeCode(t[0]), Encode(t[1..]));
      assert [t[0]] + t[1..] == t;
    }
  }

  lemma RestReads(b: Bytes, rest: Bytes)
    ensures (b + rest)[|b|..] == rest
  {
  }

  /** Only a NUL encodes to a NUL byte. */
  lemma {:induction false} NoNulByte(t: Text)
    requires 0 !in t
    ensures 0 !in Encode(t) && (t != [] ==> Encode(t) != [])
  {
    if t != [] {
      assert t == [t[0]] + t[1..];
      NoNulByte(t[1..]);
      assert 0 !in EncodeCode(t[0]);
    }
  }

  lemma FirstTakes(b: Bytes)
    requires First(b).Some?
    ensures |EncodeCode(First(b).value.0)| == First(b).value.1
  {
  }

  /** What decodes has as many bytes as its text encodes to. */
  lemma {:induction false} DecodedLength(b: Bytes)
    requires Decode(b).Some?
    ensures |Encode(Decode(b).value)| == |b|
  {
    if b != [] {
      FirstTakes(b);
      var (c, n) := First(b).value;
      DecodedLength(b[n..]);
      var t := Decode(b[n..]).value;
      assert ([c] + t)[1..] == t;
    }
  }
}
