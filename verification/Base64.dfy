/** The standard base64 alphabet with padding (RFC 4648, section 4). */
module Base64 {
  import opened Types

  /** The character for a six-bit value. */
  function Char(i: nat): (c: char)
    requires i < 64
    ensures c != '='
  {
    if i < 26 then 'A' + i as char
    else if i < 52 then 'a' + (i - 26) as char
    else if i < 62 then '0' + (i - 52) as char
    else if i == 62 then '+'
    else '/'
  }

  /** The six-bit value of a character, or 64 when it is outside the alphabet. */
  function Value(c: char): (i: nat)
    ensures i <= 64
    ensures i < 64 ==> Char(i) == c
  {
    if 'A' <= c <= 'Z' then (c - 'A') as nat
    else if 'a' <= c <= 'z' then (c - 'a') as nat + 26
    else if '0' <= c <= '9' then (c - '0') as nat + 52
    else if c == '+' then 62
    else if c == '/' then 63
    else 64
  }

  lemma ValueOfChar(i: nat)
    requires i < 64
    ensures Value(Char(i)) == i
  {
  }

  // Three bytes x, y, z hold the same 24 bits as four sextets p, q, v, w.

  function P(x: nat): (r: nat)
    requires x < 256
    ensures r < 64
  { x / 4 }

  function Q(x: nat, y: nat): (r: nat)
    requires x < 256 && y < 256
    ensures r < 64
  { x % 4 * 16 + y / 16 }

  function V(y: nat, z: nat): (r: nat)
    requires y < 256 && z < 256
    ensures r < 64
  { y % 16 * 4 + z / 64 }

  function W(z: nat): (r: nat)
    requires z < 256
    ensures r < 64
  { z % 64 }

  function X(p: nat, q: nat): (r: nat)
    requires p < 64 && q < 64
    ensures r < 256
  { p * 4 + q / 16 }

  function Y(q: nat, v: nat): (r: nat)
    requires q < 64 && v < 64
    ensures r < 256
  { q % 16 * 16 + v / 4 }

  function Z(v: nat, w: nat): (r: nat)
    requires v < 64 && w < 64
    ensures r < 256
  { v % 4 * 64 + w }

  lemma BytesRegroup(x: nat, y: nat, z: nat)
    requires x < 256 && y < 256 && z < 256
    ensures X(P(x), Q(x, y)) == x && Y(Q(x, y), V(y, z)) == y && Z(V(y, z), W(z)) == z
  {
  }

  lemma PaddedBits(x: nat, y: nat)
    requires x < 256 && y < 256
    ensures Q(x, 0) % 16 == 0 && X(P(x), Q(x, 0)) == x
    ensures V(y, 0) % 4 == 0
  {
    assert Q(x, 0) == x % 4 * 16;
    assert V(y, 0) == y % 16 * 4;
  }

  lemma SextetsRegroup(p: nat, q: nat, v: nat, w: nat)
    requires p < 64 && q < 64 && v < 64 && w < 64
    ensures P(X(p, q)) == p && Q(X(p, q), Y(q, v)) == q && V(Y(q, v), Z(v, w)) == v && W(Z(v, w)) == w
  {
  }

  function Encode(b: seq<byte>): (s: string)
    ensures b == [] <==> s == ""
  {
    if |b| == 0 then ""
    else if |b| == 1 then
      var x := b[0] as nat;
      [Char(P(x)), Char(Q(x, 0)), '=', '=']
    else if |b| == 2 then
      var x, y := b[0] as nat, b[1] as nat;
      [Char(P(x)), Char(Q(x, y)), Char(V(y, 0)), '=']
    else
      var x, y, z := b[0] as nat, b[1] as nat, b[2] as nat;
      [Char(P(x)), Char(Q(x, y)), Char(V(y, z)), Char(W(z))] + Encode(b[3..])
  }

  /** A group of four characters; a padded group must leave its unused bits zero. */
  function DecodeGroup(a: char, b: char, c: char, d: char): (r: Option<seq<byte>>)
  {
    var p, q, v, w := Value(a), Value(b), Value(c), Value(d);
    if p == 64 || q == 64 then None
    else if c == '=' && d == '=' then
      if q % 16 == 0 then Some([X(p, q) as byte]) else None
    else if v == 64 then None
    else if d == '=' then
      if v % 4 == 0 then Some([X(p, q) as byte, Y(q, v) as byte]) else None
    else if w == 64 then None
    else Some([X(p, q) as byte, Y(q, v) as byte, Z(v, w) as byte])
  }

  /** Only the final group may be padded. */
  function Decode(s: string): (r: Option<seq<byte>>)
  {
    if s == "" then Some([])
    else if |s| < 4 then None
    else
      var group := DecodeGroup(s[0], s[1], s[2], s[3]);
      if |s| == 4 || group.None? then group
      else if |group.value| < 3 then None
      else
        var rest := Decode(s[4..]);
        if rest.None? then None else Some(group.value + rest.value)
  }

  lemma FullGroup(x: nat, y: nat, z: nat)
    requires x < 256 && y < 256 && z < 256
    ensures DecodeGroup(Char(P(x)), Char(Q(x, y)), Char(V(y, z)), Char(W(z))) == Some([x as byte, y as byte, z as byte])
  {
    BytesRegroup(x, y, z);
    ValueOfChar(P(x));
    ValueOfChar(Q(x, y));
    ValueOfChar(V(y, z));
    ValueOfChar(W(z));
  }

  lemma TwoByteGroup(x: nat, y: nat)
    requires x < 256 && y < 256
    ensures DecodeGroup(Char(P(x)), Char(Q(x, y)), Char(V(y, 0)), '=') == Some([x as byte, y as byte])
  {
    BytesRegroup(x, y, 0);
    ValueOfChar(P(x));
    ValueOfChar(Q(x, y));
    ValueOfChar(V(y, 0));
  }

  lemma OneByteGroup(x: nat)
    requires x < 256
    ensures DecodeGroup(Char(P(x)), Char(Q(x, 0)), '=', '=') == Some([x as byte])
  {
    PaddedBits(x, 0);
    ValueOfChar(P(x));
    ValueOfChar(Q(x, 0));
    var p, q := P(x), Q(x, 0);
    assert Value(Char(p)) == p && Value(Char(q)) == q;
    assert DecodeGroup(Char(p), Char(q), '=', '=') == Some([X(p, q) as byte]);
  }

  lemma GroupOfBytes(b: seq<byte>)
    requires 1 <= |b| <= 3
    ensures var s := Encode(b); |s| == 4 && DecodeGroup(s[0], s[1], s[2], s[3]) == Some(b)
  {
    var x := b[0] as nat;
    if |b| == 1 {
      OneByteGroup(x);
      assert b == [x as byte];
    } else if |b| == 2 {
      TwoByteGroup(x, b[1] as nat);
      assert b == [x as byte, b[1]];
    } else {
      FullGroup(x, b[1] as nat, b[2] as nat);
      assert b == [x as byte, b[1], b[2]] && b[3..] == [];
    }
  }

  lemma BytesOfGroup(a: char, b: char, c: char, d: char)
    requires DecodeGroup(a, b, c, d).Some?
    ensures var r := DecodeGroup(a, b, c, d).value; 1 <= |r| <= 3 && Encode(r) == [a, b, c, d]
  {
    var p, q, v, w := Value(a), Value(b), Value(c), Value(d);
    var r := DecodeGroup(a, b, c, d).value;
    SextetsRegroup(p, q, 0, 0);
    if |r| == 2 {
      SextetsRegroup(p, q, v, 0);
    } else if |r| == 3 {
      SextetsRegroup(p, q, v, w);
      assert r[3..] == [];
      assert Encode(r) == [Char(p), Char(q), Char(v), Char(w)];
    }
  }

  lemma EncodeAppend(g: seq<byte>, rest: seq<byte>)
    requires |g| == 3
    ensures Encode(g + rest) == Encode(g) + Encode(rest)
  {
    assert (g + rest)[3..] == rest && g[3..] == [];
  }

  /** What a Secret decodes to is the token it was built from. */
  lemma {:induction false} DecodeEncode(b: seq<byte>)
    ensures Decode(Encode(b)) == Some(b)
  {
    if |b| == 0 {
    } else if |b| <= 3 {
      GroupOfBytes(b);
    } else {
      var g, rest := b[..3], b[3..];
      assert b == g + rest;
      EncodeAppend(g, rest);
      GroupOfBytes(g);
      DecodeEncode(rest);
      var s := Encode(b);
      assert s[4..] == Encode(rest);
      assert [s[0], s[1], s[2], s[3]] == Encode(g);
    }
  }

  /** The decoder accepts only what the encoder writes, so the two are inverse bijections. */
  lemma {:induction false} EncodeDecode(s: string)
    requires Decode(s).Some?
    ensures Encode(Decode(s).value) == s
  {
    if s == "" {
    } else {
      BytesOfGroup(s[0], s[1], s[2], s[3]);
      assert s == [s[0], s[1], s[2], s[3]] + s[4..];
      if |s| > 4 {
        EncodeDecode(s[4..]);
        EncodeAppend(DecodeGroup(s[0], s[1], s[2], s[3]).value, Decode(s[4..]).value);
      }
    }
  }
}
