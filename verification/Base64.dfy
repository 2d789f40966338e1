/** The hand-written Base64 encoder (indexer/src/rpc_manager.rs) and the decoder of
    section 4 of RFC 4648. */
module Base64 {
  import opened Words
  import opened Wrappers
  import Bits

  type Sextet = n: int | 0 <= n < 64

  /** A place in a quantum: six bits, or padding. */
  type Place = Option<Sextet>

  /** In pieces, because the verifier unfolds a literal character by character. */
  const ALPHABET := "ABCDEFGHIJKLM" + "NOPQRSTUVWXYZ" + "abcdefghijklm" + "nopqrstuvwxyz" + "0123456789+/"

  /** Table 1 of RFC 4648 by its ranges. */
  function Symbol(n: Sextet): char {
    if n < 26 then 'A' + n as char
    else if n < 52 then 'a' + (n - 26) as char
    else if n < 62 then '0' + (n - 52) as char
    else if n == 62 then '+'
    else '/'
  }

  /** The value of an alphabet symbol. */
  function Value(c: char): Option<Sextet> {
    if 'A' <= c <= 'Z' then Some(c as int - 'A' as int)
    else if 'a' <= c <= 'z' then Some(c as int - 'a' as int + 26)
    else if '0' <= c <= '9' then Some(c as int - '0' as int + 52)
    else if c == '+' then Some(62)
    else if c == '/' then Some(63)
    else None
  }

  lemma SymbolValue(n: Sextet)
    ensures Value(Symbol(n)) == Some(n)
  {
  }

  /** The text of a list of places. */
  function Render(places: seq<Place>): string {
    seq(|places|, i requires 0 <= i < |places| => if places[i].None? then '=' else Symbol(places[i].value))
  }

  /** The four sextets of three bytes, by the bits each takes from which byte. */
  function Sextets(b0: byte, b1: byte, b2: byte): (Sextet, Sextet, Sextet, Sextet) {
    (b0 / 4, b0 % 4 * 16 + b1 / 16, b1 % 16 * 4 + b2 / 64, b2 % 64)
  }

  /** The byte at a position of a chunk, zero when the chunk is too short. */
  function ByteAt(chunk: seq<byte>, k: nat): byte {
    if k < |chunk| then chunk[k] else 0
  }

  /** The quantum of a chunk of at most three bytes. */
  function Quantum(chunk: seq<byte>): (r: seq<Place>)
    requires 1 <= |chunk| <= 3
    ensures |r| == 4
  {
    var v := Sextets(chunk[0], ByteAt(chunk, 1), ByteAt(chunk, 2));
    [Some(v.0), Some(v.1), if |chunk| > 1 then Some(v.2) else None, if |chunk| > 2 then Some(v.3) else None]
  }

  function Quanta(bytes: seq<byte>): seq<Place> {
    if |bytes| <= 3 then if bytes == [] then [] else Quantum(bytes)
    else Quantum(bytes[..3]) + Quanta(bytes[3..])
  }

  lemma QuantaStep(chunk: seq<byte>, rest: seq<byte>)
    requires 1 <= |chunk| <= 3 && (rest == [] || |chunk| == 3)
    ensures Quanta(chunk + rest) == Quantum(chunk) + Quanta(rest)
  {
    assert rest == [] ==> chunk + rest == chunk;
    assert |chunk| == 3 ==> (chunk + rest)[..3] == chunk && (chunk + rest)[3..] == rest;
  }

  lemma RenderAppend(a: seq<Place>, b: seq<Place>)
    ensures Render(a + b) == Render(a) + Render(b)
  {
  }

  /** Section 4 of RFC 4648, encoding. */
  function Encoded(bytes: seq<byte>): string {
    Render(Quanta(bytes))
  }

  lemma EncodedStep(chunk: seq<byte>, rest: seq<byte>)
    requires 1 <= |chunk| <= 3 && (rest == [] || |chunk| == 3)
    ensures Encoded(chunk + rest) == Render(Quantum(chunk)) + Encoded(rest)
  {
    QuantaStep(chunk, rest);
    RenderAppend(Quantum(chunk), Quanta(rest));
  }

  /** Indexing the table of the encoder. */
  method Lookup(n: Sextet) returns (c: char)
    ensures c == Symbol(n)
  {
    if n < 13 {
      assert ALPHABET[n] == "ABCDEFGHIJKLM"[n];
    } else if n < 26 {
      assert ALPHABET[n] == "NOPQRSTUVWXYZ"[n - 13];
    } else if n < 39 {
      assert ALPHABET[n] == "abcdefghijklm"[n - 26];
    } else if n < 52 {
      assert ALPHABET[n] == "nopqrstuvwxyz"[n - 39];
    } else {
      assert ALPHABET[n] == "0123456789+/"[n - 52];
    }
    c := ALPHABET[n];
  }

  /** The base-64 digits of a number are the only four sextets that make it up. */
  lemma Digits(n: int, v0: int, v1: int, v2: int, v3: int)
    requires 0 <= v0 < 64 && 0 <= v1 < 64 && 0 <= v2 < 64 && 0 <= v3 < 64
    requires n == v0 * 262144 + v1 * 4096 + v2 * 64 + v3
    ensures n / 262144 % 64 == v0 && n / 4096 % 64 == v1 && n / 64 % 64 == v2 && n % 64 == v3
  {
    assert n / 64 == v0 * 4096 + v1 * 64 + v2;
    assert n / 4096 == v0 * 64 + v1;
    assert n / 262144 == v0;
  }

  /** Three bytes and their sextets make up the same 24-bit number. */
  lemma SameGroup(b0: byte, b1: byte, b2: byte, n: int)
    requires n == b0 * 65536 + b1 * 256 + b2
    ensures var v := Sextets(b0, b1, b2); n == v.0 as int * 262144 + v.1 as int * 4096 + v.2 as int * 64 + v.3
  {
    assert b0 == b0 / 4 * 4 + b0 % 4;
    assert b1 == b1 / 16 * 16 + b1 % 16;
    assert b2 == b2 / 64 * 64 + b2 % 64;
  }

  /** The sextets of three bytes are the base-64 digits of the 24-bit group they form. */
  lemma GroupDigits(b0: byte, b1: byte, b2: byte, n: int)
    requires n == b0 * 65536 + b1 * 256 + b2
    ensures Sextets(b0, b1, b2) == (n / 262144 % 64, n / 4096 % 64, n / 64 % 64, n % 64)
  {
    var v := Sextets(b0, b1, b2);
    SameGroup(b0, b1, b2, n);
    Digits(n, v.0, v.1, v.2, v.3);
  }

  /** The bitwise or of the shifted bytes is the 24-bit number they form. */
  lemma GroupBits(b0: byte, b1: byte, b2: byte)
    ensures Bits.Or(Bits.Or(Bits.Shl(b0, 16), Bits.Shl(b1, 8)), b2) == b0 * 65536 + b1 * 256 + b2
  {
    Bits.ShlByte(b0);
    Bits.ShlByte(b1);
    Bits.ShlByte(1);
    Bits.OrAddsUp(b0, Bits.Shl(b1, 8), 16);
    var high := b0 * 256 + b1;
    Bits.ShlByte(high);
    Bits.OrAddsUp(high, b2, 8);
  }

  /** `n >> 18`, `n >> 12`, `n >> 6` and `n`, each masked with 63, are the base-64 digits of n. */
  lemma DigitBits(n: nat)
    ensures Bits.And(Bits.Shr(n, 18), 63) == n / 262144 % 64
    ensures Bits.And(Bits.Shr(n, 12), 63) == n / 4096 % 64
    ensures Bits.And(Bits.Shr(n, 6), 63) == n / 64 % 64
    ensures Bits.And(n, 63) == n % 64
  {
    Bits.ShrSextet(n);
    Bits.ShrSextets(n);
    Bits.AndSextet(n);
    Bits.AndSextet(n / 64);
    Bits.AndSextet(n / 4096);
    Bits.AndSextet(n / 262144);
  }

  /** One turn of the encoder's loop: the bytes form a 24-bit number, whose digits are shifted and masked out. */
  method PushChunk(chunk: seq<byte>) returns (out: string)
    requires 1 <= |chunk| <= 3
    ensures out == Render(Quantum(chunk))
  {
    var b1: byte := if |chunk| > 1 then chunk[1] else 0;
    var b2: byte := if |chunk| > 2 then chunk[2] else 0;
    var n := Bits.Or(Bits.Or(Bits.Shl(chunk[0], 16), Bits.Shl(b1, 8)), b2);
    GroupBits(chunk[0], b1, b2);
    GroupDigits(chunk[0], b1, b2, n);
    DigitBits(n);
    var c0 := Lookup(Bits.And(Bits.Shr(n, 18), 63));
    var c1 := Lookup(Bits.And(Bits.Shr(n, 12), 63));
    var c2, c3 := '=', '=';
    if |chunk| > 1 { c2 := Lookup(Bits.And(Bits.Shr(n, 6), 63)); }
    if |chunk| > 2 { c3 := Lookup(Bits.And(n, 63)); }
    out := [c0, c1, c2, c3];
  }

  /** `base64_encode` */
  method Base64Encode(bytes: seq<byte>) returns (out: string)
    ensures out == Encoded(bytes)
  {
    out := "";
    var i := 0;
    while i < |bytes|
      invariant 0 <= i <= |bytes|
      invariant out + Encoded(bytes[i..]) == Encoded(bytes)
    {
      var end := if i + 3 < |bytes| then i + 3 else |bytes|;
      EncodedStep(bytes[i..end], bytes[end..]);
      assert bytes[i..] == bytes[i..end] + bytes[end..];
      var quantum := PushChunk(bytes[i..end]);
      assert out + (quantum + Encoded(bytes[end..])) == (out + quantum) + Encoded(bytes[end..]);
      out := out + quantum;
      i := end;
    }
  }

  /** The three bytes of four sextets. */
  function Ungroup(v0: Sextet, v1: Sextet, v2: Sextet, v3: Sextet): (r: seq<byte>)
    ensures |r| == 3
  {
    [v0 * 4 + v1 / 16, v1 % 16 * 16 + v2 / 4, v2 % 4 * 64 + v3]
  }

  /** One quantum. Padding is allowed only in the last one, and its unused bits must be zero. */
  function DecodeQuantum(q: string, last: bool): Option<seq<byte>>
    requires |q| == 4
  {
    var v0, v1 := Value(q[0]), Value(q[1]);
    if v0.None? || v1.None? then None
    else if q[2] == '=' then
      if last && q[3] == '=' && v1.value % 16 == 0 then Some(Ungroup(v0.value, v1.value, 0, 0)[..1]) else None
    else if Value(q[2]).None? then None
    else if q[3] == '=' then
      if last && Value(q[2]).value % 4 == 0 then Some(Ungroup(v0.value, v1.value, Value(q[2]).value, 0)[..2]) else None
    else if Value(q[3]).None? then None
    else Some(Ungroup(v0.value, v1.value, Value(q[2]).value, Value(q[3]).value))
  }

  /** Section 4 of RFC 4648, decoding. */
  function Decode(text: string): Option<seq<byte>> {
    if text == "" then Some([])
    else if |text| < 4 then None
    else
      match DecodeQuantum(text[..4], |text| == 4)
      case None => None
      case Some(head) =>
        match Decode(text[4..])
        case None => None
        case Some(tail) => Some(head + tail)
  }

  lemma UngroupSextets(b0: byte, b1: byte, b2: byte)
    ensures var v := Sextets(b0, b1, b2); Ungroup(v.0, v.1, v.2, v.3) == [b0, b1, b2]
  {
  }

  lemma DecodeEncodedChunk(chunk: seq<byte>, last: bool)
    requires 1 <= |chunk| <= 3 && (last || |chunk| == 3)
    ensures DecodeQuantum(Render(Quantum(chunk)), last) == Some(chunk)
  {
    var v := Sextets(chunk[0], ByteAt(chunk, 1), ByteAt(chunk, 2));
    UngroupSextets(chunk[0], ByteAt(chunk, 1), ByteAt(chunk, 2));
    SymbolValue(v.0);
    SymbolValue(v.1);
    SymbolValue(v.2);
    SymbolValue(v.3);
    if |chunk| == 1 {
      assert v.1 % 16 == 0 && v.2 == 0 && v.3 == 0;
      assert Ungroup(v.0, v.1, 0, 0)[..1] == chunk;
    } else if |chunk| == 2 {
      assert v.2 % 4 == 0 && v.3 == 0;
      assert Ungroup(v.0, v.1, v.2, 0)[..2] == chunk;
    } else {
      assert Ungroup(v.0, v.1, v.2, v.3) == chunk;
    }
  }

  lemma DecodeStep(quantum: string, rest: string, chunk: seq<byte>, bytes: seq<byte>)
    requires |quantum| == 4 && DecodeQuantum(quantum, rest == "") == Some(chunk)
    requires Decode(rest) == Some(bytes)
    ensures Decode(quantum + rest) == Some(chunk + bytes)
  {
    assert (quantum + rest)[..4] == quantum && (quantum + rest)[4..] == rest;
  }

  lemma DecodeEncodedStep(chunk: seq<byte>, rest: seq<byte>)
    requires 1 <= |chunk| <= 3 && (rest == [] || |chunk| == 3)
    requires Decode(Encoded(rest)) == Some(rest)
    ensures Decode(Encoded(chunk + rest)) == Some(chunk + rest)
  {
    QuantaLength(rest);
    DecodeEncodedChunk(chunk, Encoded(rest) == "");
    DecodeStep(Render(Quantum(chunk)), Encoded(rest), chunk, rest);
    EncodedStep(chunk, rest);
  }

  /** Decoding inverts encoding, for every byte string. */
  lemma {:induction false} DecodeEncoded(bytes: seq<byte>)
    ensures Decode(Encoded(bytes)) == Some(bytes)
  {
    if bytes == [] {
      assert Encoded(bytes) == "";
    } else {
      var n := if |bytes| <= 3 then |bytes| else 3;
      DecodeEncoded(bytes[n..]);
      DecodeEncodedStep(bytes[..n], bytes[n..]);
      assert bytes == bytes[..n] + bytes[n..];
    }
  }

  lemma {:induction false} QuantaLength(bytes: seq<byte>)
    ensures |Quanta(bytes)| == 4 * ((|bytes| + 2) / 3)
  {
    if |bytes| > 3 {
      QuantaLength(bytes[3..]);
      assert (|bytes| + 2) / 3 == 1 + (|bytes[3..]| + 2) / 3;
    }
  }

  /** How many bytes a string of the given length lacks to fill its last chunk. */
  function Missing(length: nat): nat {
    (3 - length % 3) % 3
  }

  /** The padding of the quanta is at the very end. */
  lemma {:induction false} PaddingLast(bytes: seq<byte>, i: nat)
    requires i < |Quanta(bytes)|
    ensures Quanta(bytes)[i].None? <==> |Quanta(bytes)| - i <= Missing(|bytes|)
    decreases |bytes|
  {
    if |bytes| > 3 {
      QuantaLength(bytes[3..]);
      assert Missing(|bytes|) == Missing(|bytes[3..]|);
      if i >= 4 { PaddingLast(bytes[3..], i - 4); }
    }
  }

  /** Output length: four characters for every three bytes begun. The only padding is at the very end,
      as many characters as the last chunk lacks bytes. */
  lemma EncodedShape(bytes: seq<byte>)
    ensures |Encoded(bytes)| == 4 * ((|bytes| + 2) / 3)
    ensures forall i :: 0 <= i < |Encoded(bytes)| ==>
              (Encoded(bytes)[i] == '=' <==> |Encoded(bytes)| - i <= Missing(|bytes|))
  {
    QuantaLength(bytes);
    forall i | 0 <= i < |Encoded(bytes)|
      ensures Encoded(bytes)[i] == '=' <==> |Encoded(bytes)| - i <= Missing(|bytes|)
    {
      PaddingLast(bytes, i);
    }
  }
}
