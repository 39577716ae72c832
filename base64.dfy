/**
 * Standard base64 (RFC 4648 section 4, "base64" with the `+` and `/` alphabet and `=` padding),
 * as used by the thumbnail handler through `base64.StdEncoding.EncodeToString`.
 *
 * The encoder works on 3-byte groups; a final group of one or two bytes is padded with `=`.
 * The decoder is the strict inverse: it accepts exactly the strings the encoder produces
 * (padding only in the last quantum, unused low bits zero), so the round trip holds in both directions.
 */
module Base64 {
  import opened Wrappers

  type byte = x: int | 0 <= x < 256
  type sextet = x: int | 0 <= x < 64

  predicate IsAlphabetChar(c: char)
  {
    ('A' <= c <= 'Z') || ('a' <= c <= 'z') || ('0' <= c <= '9') || c == '+' || c == '/'
  }

  /** The character that encodes a 6-bit value (Table 1 of RFC 4648: 0-25 `A`-`Z`, 26-51 `a`-`z`, 52-61 `0`-`9`, 62 `+`, 63 `/`). */
  function SextetChar(v: sextet): (c: char)
    ensures IsAlphabetChar(c)
  {
    if v < 26 then ('A' as int + v) as char
    else if v < 52 then ('a' as int + (v - 26)) as char
    else if v < 62 then ('0' as int + (v - 52)) as char
    else if v == 62 then '+'
    else '/'
  }

  /** The 6-bit value a character encodes, if it belongs to the alphabet. */
  function SextetValue(c: char): (r: Option<sextet>)
    ensures r.Some? <==> IsAlphabetChar(c)
    ensures r.Some? ==> SextetChar(r.value) == c
  {
    if 'A' <= c <= 'Z' then Some(c as int - 'A' as int)
    else if 'a' <= c <= 'z' then Some(c as int - 'a' as int + 26)
    else if '0' <= c <= '9' then Some(c as int - '0' as int + 52)
    else if c == '+' then Some(62)
    else if c == '/' then Some(63)
    else None
  }

  lemma SextetRoundTrip(v: sextet)
    ensures SextetValue(SextetChar(v)) == Some(v)
  {
  }

  /** A full 3-byte group becomes four alphabet characters. */
  function EncodeThree(b0: byte, b1: byte, b2: byte): string
  {
    [SextetChar(b0 / 4), SextetChar((b0 % 4) * 16 + b1 / 16), SextetChar((b1 % 16) * 4 + b2 / 64), SextetChar(b2 % 64)]
  }

  /** A final group of two bytes: three characters and one `=`. */
  function EncodeTwo(b0: byte, b1: byte): string
  {
    [SextetChar(b0 / 4), SextetChar((b0 % 4) * 16 + b1 / 16), SextetChar((b1 % 16) * 4), '=']
  }

  /** A final group of one byte: two characters and `==`. */
  function EncodeOne(b0: byte): string
  {
    [SextetChar(b0 / 4), SextetChar((b0 % 4) * 16), '=', '=']
  }

  /** The padded standard encoding of `data`. */
  function Encode(data: seq<byte>): (s: string)
    ensures |s| == 4 * ((|data| + 2) / 3)
    ensures forall i :: 0 <= i < |s| ==> IsAlphabetChar(s[i]) || s[i] == '='
    ensures forall i :: 0 <= i < |s| && s[i] == '=' ==> |s| - 2 <= i
    decreases |data|
  {
    if |data| == 0 then ""
    else if |data| == 1 then EncodeOne(data[0])
    else if |data| == 2 then EncodeTwo(data[0], data[1])
    else EncodeThree(data[0], data[1], data[2]) + Encode(data[3..])
  }

  /** Single-group encodings: the bytes of "f", "fo", "foo", "b", "ba", "bar", and three bytes with every bit but one set. */
  lemma OneGroupVectors()
    ensures Encode([102]) == "Zg==" && Encode([102, 111]) == "Zm8=" && Encode([102, 111, 111]) == "Zm9v"
    ensures Encode([98]) == "Yg==" && Encode([98, 97]) == "YmE=" && Encode([98, 97, 114]) == "YmFy"
    ensures Encode([255, 255, 254]) == "///+"
  {
  }

  /** Encoding a full group in front of the rest. */
  lemma EncodeGroupThen(b0: byte, b1: byte, b2: byte, t: seq<byte>)
    ensures Encode([b0, b1, b2] + t) == Encode([b0, b1, b2]) + Encode(t)
  {
    var data := [b0, b1, b2] + t;
    assert data[..3] == [b0, b1, b2] && data[3..] == t;
    EncodeFullGroup(data);
    assert [b0, b1, b2][3..] == [];
  }

  /** The test vectors of section 10 of RFC 4648: the bytes of "", "f", "fo", "foo", "foob", "fooba", "foobar". */
  lemma StandardVectors()
    ensures Encode([]) == ""
    ensures Encode([102]) == "Zg==" && Encode([102, 111]) == "Zm8=" && Encode([102, 111, 111]) == "Zm9v"
    ensures Encode([102, 111, 111, 98]) == "Zm9vYg=="
    ensures Encode([102, 111, 111, 98, 97]) == "Zm9vYmE="
    ensures Encode([102, 111, 111, 98, 97, 114]) == "Zm9vYmFy"
  {
    OneGroupVectors();
    EncodeGroupThen(102, 111, 111, [98]);
    EncodeGroupThen(102, 111, 111, [98, 97]);
    EncodeGroupThen(102, 111, 111, [98, 97, 114]);
    assert [102, 111, 111] + [98] == [102, 111, 111, 98];
    assert [102, 111, 111] + [98, 97] == [102, 111, 111, 98, 97];
    assert [102, 111, 111] + [98, 97, 114] == [102, 111, 111, 98, 97, 114];
  }

  /** Decodes one 4-character quantum into one, two or three bytes. */
  function DecodeQuantum(q: string): (r: Option<seq<byte>>)
    requires |q| == 4
    ensures r.Some? ==> 1 <= |r.value| <= 3
  {
    var v0, v1, v2, v3 := SextetValue(q[0]), SextetValue(q[1]), SextetValue(q[2]), SextetValue(q[3]);
    if v0.None? || v1.None? then None
    else if q[2] == '=' && q[3] == '=' then
      if v1.value % 16 == 0 then Some([v0.value * 4 + v1.value / 16]) else None
    else if v2.None? then None
    else if q[3] == '=' then
      if v2.value % 4 == 0 then Some([v0.value * 4 + v1.value / 16, (v1.value % 16) * 16 + v2.value / 4])
      else None
    else if v3.None? then None
    else Some([v0.value * 4 + v1.value / 16, (v1.value % 16) * 16 + v2.value / 4, (v2.value % 4) * 64 + v3.value])
  }

  /** Strict decoding: `None` for any string that is not the encoding of some byte sequence. */
  function Decode(s: string): (r: Option<seq<byte>>)
    decreases |s|
  {
    if |s| == 0 then Some([])
    else if |s| < 4 then None
    else
      match DecodeQuantum(s[..4])
      case None => None
      case Some(g) =>
        if |g| < 3 then (if |s| == 4 then Some(g) else None)
        else
          match Decode(s[4..])
          case None => None
          case Some(rest) => Some(g + rest)
  }

  lemma DecodeEncodeThree(b0: byte, b1: byte, b2: byte)
    ensures DecodeQuantum(EncodeThree(b0, b1, b2)) == Some([b0, b1, b2])
  {
    var c0, c1, c2, c3 := b0 / 4, (b0 % 4) * 16 + b1 / 16, (b1 % 16) * 4 + b2 / 64, b2 % 64;
    SextetRoundTrip(c0);
    SextetRoundTrip(c1);
    SextetRoundTrip(c2);
    SextetRoundTrip(c3);
    assert c0 * 4 + c1 / 16 == b0;
    assert (c1 % 16) * 16 + c2 / 4 == b1;
    assert (c2 % 4) * 64 + c3 == b2;
  }

  lemma DecodeEncodeTwo(b0: byte, b1: byte)
    ensures DecodeQuantum(EncodeTwo(b0, b1)) == Some([b0, b1])
  {
    SextetRoundTrip(b0 / 4);
    SextetRoundTrip((b0 % 4) * 16 + b1 / 16);
    SextetRoundTrip((b1 % 16) * 4);
  }

  lemma DecodeEncodeOne(b0: byte)
    ensures DecodeQuantum(EncodeOne(b0)) == Some([b0])
  {
    SextetRoundTrip(b0 / 4);
    SextetRoundTrip((b0 % 4) * 16);
  }

  /** Decoding the encoding of any byte sequence gives it back. */
  lemma {:induction false} DecodeEncode(data: seq<byte>)
    ensures Decode(Encode(data)) == Some(data)
    decreases |data|
  {
    if 1 <= |data| <= 2 {
      DecodeEncodeShort(data);
    } else if |data| >= 3 {
      DecodeEncode(data[3..]);
      DecodeEncodeStep(data[0], data[1], data[2], data[3..]);
      SplitGroup(data);
    }
  }

  lemma SplitGroup(data: seq<byte>)
    requires |data| >= 3
    ensures [data[0], data[1], data[2]] + data[3..] == data
  {
  }

  /** A final group of one or two bytes is a single padded quantum. */
  lemma DecodeEncodeShort(data: seq<byte>)
    requires 1 <= |data| <= 2
    ensures Decode(Encode(data)) == Some(data)
  {
    var e := Encode(data);
    assert e[..4] == e;
    if |data| == 1 {
      DecodeEncodeOne(data[0]);
      assert [data[0]] == data;
    } else {
      DecodeEncodeTwo(data[0], data[1]);
      assert [data[0], data[1]] == data;
    }
  }

  /** One step of the round trip: a full group in front of a tail that already round-trips. */
  lemma DecodeEncodeStep(b0: byte, b1: byte, b2: byte, t: seq<byte>)
    requires Decode(Encode(t)) == Some(t)
    ensures Decode(Encode([b0, b1, b2] + t)) == Some([b0, b1, b2] + t)
  {
    var data := [b0, b1, b2] + t;
    assert data[..3] == [b0, b1, b2] && data[3..] == t;
    EncodeFullGroup(data);
    DecodeEncodeThree(b0, b1, b2);
    DecodeFullQuantumThen(EncodeThree(b0, b1, b2), Encode(t), [b0, b1, b2], t);
  }

  lemma EncodeFullGroup(data: seq<byte>)
    requires |data| >= 3
    ensures Encode(data) == EncodeThree(data[0], data[1], data[2]) + Encode(data[3..])
  {
  }

  /** A full quantum followed by a decodable tail decodes to the group followed by the tail's bytes. */
  lemma DecodeFullQuantumThen(head: string, tail: string, g: seq<byte>, rest: seq<byte>)
    requires |head| == 4 && DecodeQuantum(head) == Some(g) && |g| == 3
    requires Decode(tail) == Some(rest)
    ensures Decode(head + tail) == Some(g + rest)
  {
    var s := head + tail;
    assert s[..4] == head;
    assert s[4..] == tail;
  }

  /** Every quantum the decoder accepts is the encoding of the bytes it yields. */
  lemma EncodeDecodeQuantum(q: string)
    requires |q| == 4 && DecodeQuantum(q).Some?
    ensures var g := DecodeQuantum(q).value;
      (|g| == 1 ==> EncodeOne(g[0]) == q) &&
      (|g| == 2 ==> EncodeTwo(g[0], g[1]) == q) &&
      (|g| == 3 ==> EncodeThree(g[0], g[1], g[2]) == q)
  {
    var v0: int, v1: int := SextetValue(q[0]).value, SextetValue(q[1]).value;
    var b0: byte := v0 * 4 + v1 / 16;
    assert b0 / 4 == v0;
    if q[2] == '=' && q[3] == '=' {
      assert (b0 % 4) * 16 == v1;
      assert EncodeOne(b0) == q;
    } else {
      var v2: int := SextetValue(q[2]).value;
      var b1: byte := (v1 % 16) * 16 + v2 / 4;
      assert (b0 % 4) * 16 + b1 / 16 == v1;
      if q[3] == '=' {
        assert (b1 % 16) * 4 == v2;
        assert EncodeTwo(b0, b1) == q;
      } else {
        var v3: int := SextetValue(q[3]).value;
        var b2: byte := (v2 % 4) * 64 + v3;
        assert (b1 % 16) * 4 + b2 / 64 == v2;
        assert b2 % 64 == v3;
        assert EncodeThree(b0, b1, b2) == q;
      }
    }
  }

  /** A string the decoder accepts is the encoding of what it decodes to. */
  lemma {:induction false} EncodeDecode(s: string)
    requires Decode(s).Some?
    ensures Encode(Decode(s).value) == s
    decreases |s|
  {
    if |s| > 0 {
      var g := DecodeQuantum(s[..4]).value;
      EncodeDecodeQuantum(s[..4]);
      if |g| < 3 {
        assert s[..4] == s;
      } else {
        var rest := Decode(s[4..]).value;
        EncodeDecode(s[4..]);
        var data := g + rest;
        assert data[..3] == g && data[3..] == rest;
        assert Encode(data) == EncodeThree(g[0], g[1], g[2]) + Encode(rest);
        assert s == s[..4] + s[4..];
      }
    }
  }
}
