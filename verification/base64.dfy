/** The base64 encoding of section 4 of RFC 4648: the alphabet
    `A-Z a-z 0-9 + /`, four symbols per three bytes, `=` padding in the
    last quantum. It stands for the host's `readAsDataURL` encoder and its
    `atob` decoder. */
module Base64 {

  import opened Common
  import opened Browser

  /** The symbol for a 6-bit value. */
  function Symbol(v: nat): (c: char)
    requires v < 64
    ensures c != '=' && IsEncodedChar(c)
  {
    if v < 26 then ('A' as int + v) as char
    else if v < 52 then ('a' as int + (v - 26)) as char
    else if v < 62 then ('0' as int + (v - 52)) as char
    else if v == 62 then '+'
    else '/'
  }

  /** The 6-bit value of an alphabet symbol; None for anything else, `=` included. */
  function SymbolValue(c: char): (r: Option<nat>)
    ensures r.Some? ==> r.value < 64
  {
    if 'A' <= c <= 'Z' then Some(c as int - 'A' as int)
    else if 'a' <= c <= 'z' then Some(c as int - 'a' as int + 26)
    else if '0' <= c <= '9' then Some(c as int - '0' as int + 52)
    else if c == '+' then Some(62)
    else if c == '/' then Some(63)
    else None
  }

  lemma SymbolRoundTrip(v: nat)
    requires v < 64
    ensures SymbolValue(Symbol(v)) == Some(v)
  {
  }

  /** Every character the encoder emits is a symbol or padding. */
  predicate IsEncodedChar(c: char) {
    'A' <= c <= 'Z' || 'a' <= c <= 'z' || '0' <= c <= '9' || c == '+' || c == '/' || c == '='
  }

  /** The four symbols for three bytes. */
  function EncodeTriple(b0: byte, b1: byte, b2: byte): (q: string)
    ensures |q| == 4 && forall i :: 0 <= i < 4 ==> IsEncodedChar(q[i])
  {
    [Symbol(b0 as int / 4),
     Symbol((b0 as int % 4) * 16 + b1 as int / 16),
     Symbol((b1 as int % 16) * 4 + b2 as int / 64),
     Symbol(b2 as int % 64)]
  }

  /** The last quantum for one or two remaining bytes, padded with `=`. */
  function EncodeRest(b: seq<byte>): (q: string)
    requires 1 <= |b| <= 2
    ensures |q| == 4 && forall i :: 0 <= i < 4 ==> IsEncodedChar(q[i])
    ensures q[3] == '=' && (q[2] == '=' <==> |b| == 1)
  {
    if |b| == 1 then
      [Symbol(b[0] as int / 4), Symbol((b[0] as int % 4) * 16), '=', '=']
    else
      [Symbol(b[0] as int / 4), Symbol((b[0] as int % 4) * 16 + b[1] as int / 16),
       Symbol((b[1] as int % 16) * 4), '=']
  }

  function Encode(b: seq<byte>): (s: string)
    ensures |s| == 4 * ((|b| + 2) / 3)
    ensures forall i :: 0 <= i < |s| ==> IsEncodedChar(s[i])
    decreases |b|
  {
    if |b| == 0 then ""
    else if |b| < 3 then EncodeRest(b)
    else
      var head, tail := EncodeTriple(b[0], b[1], b[2]), Encode(b[3..]);
      EncodedConcat(head, tail);
      QuantaStep(|b|);
      head + tail
  }

  /** Three more bytes take one more quantum. */
  lemma QuantaStep(n: nat)
    requires n >= 3
    ensures (n + 2) / 3 == (n - 3 + 2) / 3 + 1
  {
  }

  lemma EncodedConcat(a: string, b: string)
    requires forall i :: 0 <= i < |a| ==> IsEncodedChar(a[i])
    requires forall i :: 0 <= i < |b| ==> IsEncodedChar(b[i])
    ensures forall i :: 0 <= i < |a + b| ==> IsEncodedChar((a + b)[i])
  {
  }

  /** Three bytes from four symbol values. */
  function DecodeQuantum(v0: nat, v1: nat, v2: nat, v3: nat): seq<byte>
    requires v0 < 64 && v1 < 64 && v2 < 64 && v3 < 64
  {
    [(v0 * 4 + v1 / 16) as byte, ((v1 % 16) * 16 + v2 / 4) as byte, ((v2 % 4) * 64 + v3) as byte]
  }

  /** The last quantum, which may end in one or two `=`. Bits below the
      last byte are discarded, as `atob` discards them. */
  function DecodeLast(q: string): (r: Option<seq<byte>>)
    requires |q| == 4
    ensures r.Some? ==> 1 <= |r.value| <= 3
  {
    var v0 := SymbolValue(q[0]);
    var v1 := SymbolValue(q[1]);
    var v2 := SymbolValue(q[2]);
    var v3 := SymbolValue(q[3]);
    if v0.None? || v1.None? then None
    else if q[2] == '=' && q[3] == '=' then
      Some([(v0.value * 4 + v1.value / 16) as byte])
    else if v2.Some? && q[3] == '=' then
      Some([(v0.value * 4 + v1.value / 16) as byte, ((v1.value % 16) * 16 + v2.value / 4) as byte])
    else if v2.Some? && v3.Some? then
      Some(DecodeQuantum(v0.value, v1.value, v2.value, v3.value))
    else None
  }

  /** Decoding: a whole number of quanta, padding only at the very end,
      nothing outside the alphabet. */
  function Decode(s: string): (r: Option<seq<byte>>)
    ensures r.Some? ==> |s| % 4 == 0
    decreases |s|
  {
    if |s| == 0 then Some([])
    else if |s| < 4 then None
    else if |s| == 4 then DecodeLast(s)
    else
      var v0 := SymbolValue(s[0]);
      var v1 := SymbolValue(s[1]);
      var v2 := SymbolValue(s[2]);
      var v3 := SymbolValue(s[3]);
      if v0.None? || v1.None? || v2.None? || v3.None? then None
      else match Decode(s[4..])
        case None => None
        case Some(rest) => Some(DecodeQuantum(v0.value, v1.value, v2.value, v3.value) + rest)
  }

  lemma SingleRoundTrip(b0: byte)
    ensures ((b0 as int / 4) * 4 + ((b0 as int % 4) * 16) / 16) as byte == b0
  {
  }

  lemma PairRoundTrip(b0: byte, b1: byte)
    ensures ((b0 as int / 4) * 4 + ((b0 as int % 4) * 16 + b1 as int / 16) / 16) as byte == b0
    ensures ((((b0 as int % 4) * 16 + b1 as int / 16) % 16) * 16 + ((b1 as int % 16) * 4) / 4) as byte == b1
  {
  }

  /** Packing a high part above a low part of 16 or 4 values unpacks again. */
  lemma Unpack(hi: nat, lo: nat, k: nat)
    requires k == 16 || k == 4
    requires lo < k
    ensures (hi * k + lo) / k == hi && (hi * k + lo) % k == lo
  {
    if k == 16 {
      assert (hi * 16 + lo) / 16 == hi;
    } else {
      assert (hi * 4 + lo) / 4 == hi;
    }
  }

  lemma TripleRoundTrip(b0: byte, b1: byte, b2: byte)
    ensures DecodeQuantum(b0 as int / 4, (b0 as int % 4) * 16 + b1 as int / 16,
                          (b1 as int % 16) * 4 + b2 as int / 64, b2 as int % 64) == [b0, b1, b2]
  {
    var x0, x1, x2 := b0 as int, b1 as int, b2 as int;
    var v1 := (x0 % 4) * 16 + x1 / 16;
    var v2 := (x1 % 16) * 4 + x2 / 64;
    Unpack(x0 % 4, x1 / 16, 16);
    Unpack(x1 % 16, x2 / 64, 4);
    assert (x0 / 4) * 4 + v1 / 16 == x0;
    assert (v1 % 16) * 16 + v2 / 4 == x1;
    assert (v2 % 4) * 64 + x2 % 64 == x2;
  }

  lemma DecodeEncodeOne(b0: byte)
    ensures Decode(Encode([b0])) == Some([b0])
  {
    var s := Encode([b0]);
    assert s == EncodeRest([b0]);
    SymbolRoundTrip(b0 as int / 4);
    SymbolRoundTrip((b0 as int % 4) * 16);
    SingleRoundTrip(b0);
    assert Decode(s) == DecodeLast(s);
  }

  lemma DecodeEncodeTwo(b0: byte, b1: byte)
    ensures Decode(Encode([b0, b1])) == Some([b0, b1])
  {
    var s := Encode([b0, b1]);
    assert s == EncodeRest([b0, b1]);
    SymbolRoundTrip(b0 as int / 4);
    SymbolRoundTrip((b0 as int % 4) * 16 + b1 as int / 16);
    SymbolRoundTrip((b1 as int % 16) * 4);
    PairRoundTrip(b0, b1);
    assert Decode(s) == DecodeLast(s);
  }

  /** Decoding a string longer than one quantum whose first four
      characters are symbols. */
  lemma DecodeStep(s: string, v0: nat, v1: nat, v2: nat, v3: nat)
    requires |s| > 4
    requires SymbolValue(s[0]) == Some(v0) && SymbolValue(s[1]) == Some(v1)
    requires SymbolValue(s[2]) == Some(v2) && SymbolValue(s[3]) == Some(v3)
    ensures Decode(s) == match Decode(s[4..])
                         case None => None
                         case Some(rest) => Some(DecodeQuantum(v0, v1, v2, v3) + rest)
  {
  }

  /** One leading quantum of three bytes decodes back to them. */
  lemma DecodeEncodeTriple(b0: byte, b1: byte, b2: byte, rest: string)
    requires |rest| > 0
    requires Decode(rest).Some?
    ensures Decode(EncodeTriple(b0, b1, b2) + rest) == Some([b0, b1, b2] + Decode(rest).value)
  {
    var q := EncodeTriple(b0, b1, b2);
    var s := q + rest;
    var v0, v1 := b0 as int / 4, (b0 as int % 4) * 16 + b1 as int / 16;
    var v2, v3 := (b1 as int % 16) * 4 + b2 as int / 64, b2 as int % 64;
    SymbolRoundTrip(v0);
    SymbolRoundTrip(v1);
    SymbolRoundTrip(v2);
    SymbolRoundTrip(v3);
    assert s[0] == Symbol(v0) && s[1] == Symbol(v1) && s[2] == Symbol(v2) && s[3] == Symbol(v3);
    DecodeStep(s, v0, v1, v2, v3);
    assert s[4..] == rest;
    TripleRoundTrip(b0, b1, b2);
  }

  lemma DecodeEncodeLastTriple(b0: byte, b1: byte, b2: byte)
    ensures Decode(EncodeTriple(b0, b1, b2)) == Some([b0, b1, b2])
  {
    var q := EncodeTriple(b0, b1, b2);
    SymbolRoundTrip(b0 as int / 4);
    SymbolRoundTrip((b0 as int % 4) * 16 + b1 as int / 16);
    SymbolRoundTrip((b1 as int % 16) * 4 + b2 as int / 64);
    SymbolRoundTrip(b2 as int % 64);
    TripleRoundTrip(b0, b1, b2);
    assert Decode(q) == DecodeLast(q);
  }

  lemma EncodeUnfold(b: seq<byte>)
    requires |b| >= 3
    ensures Encode(b) == EncodeTriple(b[0], b[1], b[2]) + Encode(b[3..])
  {
  }

  /** Decoding what the encoder wrote gives back the bytes. */
  lemma {:induction false} DecodeEncode(b: seq<byte>)
    ensures Decode(Encode(b)) == Some(b)
    decreases |b|
  {
    if |b| == 1 {
      assert b == [b[0]];
      DecodeEncodeOne(b[0]);
    } else if |b| == 2 {
      assert b == [b[0], b[1]];
      DecodeEncodeTwo(b[0], b[1]);
    } else if |b| >= 3 {
      EncodeUnfold(b);
      var tail := b[3..];
      assert b == [b[0], b[1], b[2]] + tail;
      if |tail| == 0 {
        assert Encode(tail) == "";
        assert Encode(b) == EncodeTriple(b[0], b[1], b[2]);
        DecodeEncodeLastTriple(b[0], b[1], b[2]);
        assert b == [b[0], b[1], b[2]];
      } else {
        DecodeEncode(tail);
        DecodeEncodeTriple(b[0], b[1], b[2], Encode(tail));
      }
    }
  }
}
