/** UTF-8 (RFC 3629, section 3): the byte view of a Rust `String`. */
module Utf8 {
  import opened Words
  import opened Wrappers

  function EncodeChar(c: char): (r: seq<byte>)
    ensures 1 <= |r| <= 4
  {
    var n := c as int;
    if n < 0x80 then [n]
    else if n < 0x800 then [0xC0 + n / 64, 0x80 + n % 64]
    else if n < 0x1_0000 then [0xE0 + n / 4096, 0x80 + n / 64 % 64, 0x80 + n % 64]
    else [0xF0 + n / 262144, 0x80 + n / 4096 % 64, 0x80 + n / 64 % 64, 0x80 + n % 64]
  }

  /** `str::as_bytes` */
  function Encode(s: string): seq<byte> {
    if s == "" then [] else EncodeChar(s[0]) + Encode(s[1..])
  }

  predicate IsScalar(n: int) {
    0 <= n < 0xD800 || 0xE000 <= n < 0x11_0000
  }

  function Sextet(continuation: byte): int {
    continuation - 0x80
  }

  /** The scalar value at the head of `b`, and how many bytes it took. */
  function DecodeHead(b: seq<byte>): (r: Option<(int, nat)>)
    requires b != []
    ensures r.Some? ==> 1 <= r.value.1 <= |b|
  {
    var lead: int := b[0];
    if lead < 0x80 then Some((lead, 1))
    else if 0xC0 <= lead < 0xE0 && |b| >= 2 then
      Some(((lead - 0xC0) * 64 + Sextet(b[1]), 2))
    else if 0xE0 <= lead < 0xF0 && |b| >= 3 then
      Some(((lead - 0xE0) * 4096 + Sextet(b[1]) * 64 + Sextet(b[2]), 3))
    else if 0xF0 <= lead && |b| >= 4 then
      Some(((lead - 0xF0) * 262144 + Sextet(b[1]) * 4096 + Sextet(b[2]) * 64 + Sextet(b[3]), 4))
    else None
  }

  /** `String::from_utf8`, on the encodings that `Encode` produces. */
  function Decode(b: seq<byte>): Option<string> {
    if b == [] then Some("") else
      match DecodeHead(b)
      case None => None
      case Some((n, width)) =>
        if !IsScalar(n) then None else
          match Decode(b[width..])
          case None => None
          case Some(rest) => Some([n as char] + rest)
  }

  lemma SplitSextets(n: nat)
    ensures n == n / 64 * 64 + n % 64
    ensures n / 64 / 64 == n / 4096 && n / 4096 / 64 == n / 262144
    ensures n / 64 == n / 4096 * 64 + n / 64 % 64
    ensures n / 4096 == n / 262144 * 64 + n / 4096 % 64
  {
  }

  lemma DecodeHeadOfEncoded(c: char, rest: seq<byte>)
    ensures DecodeHead(EncodeChar(c) + rest) == Some((c as int, |EncodeChar(c)|))
  {
    SplitSextets(c as int);
  }

  lemma {:induction false} DecodeEncode(s: string)
    ensures Decode(Encode(s)) == Some(s)
  {
    if s != "" {
      var head, rest := EncodeChar(s[0]), Encode(s[1..]);
      DecodeHeadOfEncoded(s[0], rest);
      assert (head + rest)[|head|..] == rest;
      DecodeEncode(s[1..]);
      assert s == [s[0]] + s[1..];
    }
  }
}
