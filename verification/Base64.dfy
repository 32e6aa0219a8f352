/** The hand-written base64 codec that carries file contents over the text channel
    (RFC 4648, section 4). Shifts and masks on 32-bit words are written as `*`, `/` and `%`. */
module Base64 {
  import opened Common

  type sextet = x: int | 0 <= x < 64

  const PAD: byte := 61

  const U32: nat := 0x1_0000_0000

  /** The alphabet table. */
  function Table(v: sextet): byte {
    if v < 26 then 65 + v
    else if v < 52 then 97 + (v - 26)
    else if v < 62 then 48 + (v - 52)
    else if v == 62 then 43
    else 47
  }

  function Val(c: byte): Option<sextet> {
    if 65 <= c <= 90 then Some(c - 65)
    else if 97 <= c <= 122 then Some(c - 97 + 26)
    else if 48 <= c <= 57 then Some(c - 48 + 52)
    else if c == 43 then Some(62)
    else if c == 47 then Some(63)
    else None
  }

  lemma ValOfTable(v: sextet)
    ensures Val(Table(v)) == Some(v) && Table(v) != PAD
  {
  }

  // ---- Meaning ----

  /** The four characters of up to three bytes. */
  function Quad(b0: byte, b1: byte, b2: byte, len: nat): (q: seq<byte>)
    requires 1 <= len <= 3
    ensures |q| == 4
  {
    var n := b0 * 0x1_0000 + b1 * 0x100 + b2;
    [Table(n / 0x4_0000 % 64), Table(n / 0x1000 % 64),
     if len > 1 then Table(n / 64 % 64) else PAD,
     if len > 2 then Table(n % 64) else PAD]
  }

  function Encoding(x: seq<byte>): seq<byte> {
    if |x| == 0 then []
    else if |x| == 1 then Quad(x[0], 0, 0, 1)
    else if |x| == 2 then Quad(x[0], x[1], 0, 2)
    else Quad(x[0], x[1], x[2], 3) + Encoding(x[3..])
  }

  /** The sextets of a text: characters outside the alphabet are skipped, and padding ends it. */
  function Sextets(s: seq<byte>): seq<sextet> {
    if s == [] || s[0] == PAD then []
    else if Val(s[0]).Some? then [Val(s[0]).value] + Sextets(s[1..])
    else Sextets(s[1..])
  }

  function First(a: sextet, b: sextet): byte { a * 4 + b / 16 }
  function Second(b: sextet, c: sextet): byte { b % 16 * 16 + c / 4 }
  function Third(c: sextet, d: sextet): byte { c % 4 * 64 + d }

  /** The byte that sextet `v` completes after a quad's sextet `last`, by its place in the quad. */
  function Completed(place: nat, last: sextet, v: sextet): byte {
    if place == 1 then First(last, v) else if place == 2 then Second(last, v) else Third(last, v)
  }

  /** The bytes that sextets pack: the second, third and fourth sextet of a quad complete one each. */
  function Unpack(vs: seq<sextet>): seq<byte> {
    if vs == [] then []
    else
      var n := |vs| - 1;
      if n % 4 == 0 then Unpack(vs[..n])
      else Unpack(vs[..n]) + [Completed(n % 4, vs[n - 1], vs[n])]
  }

  // ---- The loops ----

  lemma EncodingStep(x: seq<byte>, i: nat)
    requires i < |x|
    ensures var len := Min(3, |x| - i);
            Encoding(x[i..]) == Quad(x[i], if len > 1 then x[i + 1] else 0, if len > 2 then x[i + 2] else 0, len)
                                + Encoding(x[i + len..])
  {
    var y := x[i..];
    if |y| < 3 {
      assert x[i + |y|..] == [];
      ConcatEmpty(Encoding(y));
    } else {
      assert y[3..] == x[i + 3..];
    }
  }

  method EncodeBase64(bytes: seq<byte>) returns (out: seq<byte>)
    ensures out == Encoding(bytes)
  {
    out := [];
    var i := 0;
    assert bytes[0..] == bytes;
    ConcatEmpty(Encoding(bytes));
    while i < |bytes|
      invariant 0 <= i <= |bytes|
      invariant out + Encoding(bytes[i..]) == Encoding(bytes)
      decreases |bytes| - i
    {
      var len := Min(3, |bytes| - i);
      var b0 := bytes[i];
      var b1 := if len > 1 then bytes[i + 1] else 0;
      var b2 := if len > 2 then bytes[i + 2] else 0;
      var quad := Quad(b0, b1, b2, len);
      EncodingStep(bytes, i);
      ConcatAssociates(out, quad, Encoding(bytes[i + len..]));
      out := out + quad;
      i := i + len;
    }
    ConcatEmpty(out);
  }

  function Pow2(bits: nat): nat {
    if bits == 0 then 1 else if bits == 2 then 4 else if bits == 4 then 16 else 64
  }

  /** The machine state after some sextets: whole quads are out, and of an unfinished quad the
      whole bytes are out and the remaining bits are the live ones of the buffer. */
  ghost predicate Decoded(seen: seq<sextet>, out: seq<byte>, buf: nat, bits: nat) {
    && out == Unpack(seen)
    && bits == 6 * |seen| % 8
    && (bits > 0 ==> seen != [] && buf % Pow2(bits) == seen[|seen| - 1] % Pow2(bits))
  }

  lemma DecodedUnpacks(seen: seq<sextet>, out: seq<byte>, buf: nat, bits: nat)
    requires Decoded(seen, out, buf, bits)
    ensures out == Unpack(seen)
  {
  }

  lemma Div(d: nat, a: nat, r: nat)
    requires d in {4, 8, 16, 64, 256, 0x1000, 0x4_0000} && r < d
    ensures (a * d + r) / d == a && (a * d + r) % d == r
  {
  }

  lemma PlaceOfBits(n: nat)
    ensures 6 * n % 8 == (match n % 4 case 0 => 0 case 1 => 6 case 2 => 4 case _ => 2)
    ensures 6 * (n + 1) % 8 == (match n % 4 case 0 => 6 case 1 => 4 case 2 => 2 case _ => 0)
  {
    var q := 3 * (n / 4);
    match n % 4 {
      case 0 => Div(8, q, 0); Div(8, q, 6);
      case 1 => Div(8, q, 6); Div(8, q + 1, 4);
      case 2 => Div(8, q + 1, 4); Div(8, q + 2, 2);
      case _ => Div(8, q + 2, 2); Div(8, q + 3, 0);
    }
  }

  /** One more sextet completes at most one byte. */
  lemma {:induction false} UnpackNext(vs: seq<sextet>, v: sextet)
    ensures Unpack(vs + [v])
            == if |vs| % 4 == 0 then Unpack(vs)
               else Unpack(vs) + [Completed(|vs| % 4, vs[|vs| - 1], v)]
  {
    assert (vs + [v])[..|vs|] == vs;
  }

  lemma WrapKeepsLowBits(w: nat)
    ensures w % U32 % 0x1000 == w % 0x1000
  {
    var q, r := w / U32, w % U32;
    assert w == q * 0x10_0000 * 0x1000 + r;
    Div(0x1000, q * 0x10_0000 + r / 0x1000, r % 0x1000);
  }

  /** Shifting six bits in keeps the low bits of the buffer, whatever falls off the top. */
  lemma ShiftKeepsLowBits(buf: nat, v: sextet)
    ensures var next := (buf * 64 + v) % U32;
            next % 0x1000 == buf % 64 * 64 + v && next % 64 == v
  {
    var w := buf * 64 + v;
    WrapKeepsLowBits(w);
    Div(0x1000, buf / 64, buf % 64 * 64 + v);
    Div(64, w % U32 / 0x1000 * 64 + buf % 64, v);
  }

  /** The first sextet of a quad completes no byte. */
  lemma QuadStarts(seen: seq<sextet>, out: seq<byte>, buf: nat, v: sextet)
    requires Decoded(seen, out, buf, 0) && |seen| % 4 == 0
    ensures Decoded(seen + [v], out, (buf * 64 + v) % U32, 6)
  {
    UnpackNext(seen, v);
    PlaceOfBits(|seen|);
    ShiftKeepsLowBits(buf, v);
  }

  lemma LowBits(buf: nat)
    ensures buf % 64 % 16 == buf % 16 && buf % 64 % 4 == buf % 4
  {
    Div(16, buf / 64 * 4 + buf % 64 / 16, buf % 64 % 16);
    Div(4, buf / 64 * 16 + buf % 64 / 4, buf % 64 % 4);
  }

  lemma FirstIsCompleted(k: nat, last: sextet, v: sextet)
    ensures var next := k * 0x1000 + last * 64 + v;
            next / 16 % 256 == First(last, v) && next % 16 == v % 16
  {
    Div(16, k * 256 + last * 4 + v / 16, v % 16);
    Div(256, k, last * 4 + v / 16);
  }

  lemma SecondIsCompleted(k: nat, b: sextet, last: sextet, v: sextet)
    requires b % 16 == last % 16
    ensures var next := k * 0x1000 + b * 64 + v;
            next / 4 % 256 == Second(last, v) && next % 4 == v % 4
  {
    Div(4, k * 1024 + b * 16 + v / 4, v % 4);
    Div(256, k * 4 + b / 16, last % 16 * 16 + v / 4);
  }

  lemma ThirdIsCompleted(k: nat, b: sextet, last: sextet, v: sextet)
    requires b % 4 == last % 4
    ensures (k * 0x1000 + b * 64 + v) % 256 == Third(last, v)
  {
    Div(256, k * 16 + b / 4, last % 4 * 64 + v);
  }

  /** What the accumulator puts out and keeps when a sextet completes a byte. */
  lemma ByteIsCompleted(place: nat, buf: nat, next: nat, last: sextet, v: sextet)
    requires 1 <= place <= 3 && next % 0x1000 == buf % 64 * 64 + v
    requires buf % Pow2(8 - 2 * place) == last % Pow2(8 - 2 * place)
    ensures next / Pow2(6 - 2 * place) % 256 == Completed(place, last, v)
    ensures next % Pow2(6 - 2 * place) == v % Pow2(6 - 2 * place) || place == 3
  {
    var k := next / 0x1000;
    LowBits(buf);
    if place == 1 {
      FirstIsCompleted(k, last, v);
    } else if place == 2 {
      SecondIsCompleted(k, buf % 64, last, v);
    } else {
      ThirdIsCompleted(k, buf % 64, last, v);
    }
  }

  /** Every other sextet completes one; the live bits survive the 32-bit shift, so it is the right one. */
  lemma QuadGoesOn(seen: seq<sextet>, out: seq<byte>, buf: nat, bits: nat, v: sextet)
    requires Decoded(seen, out, buf, bits) && |seen| % 4 > 0 && bits == 8 - 2 * (|seen| % 4)
    ensures var next := (buf * 64 + v) % U32;
            Decoded(seen + [v], out + [next / Pow2(bits - 2) % 256], next, bits - 2)
  {
    var place, next := |seen| % 4, (buf * 64 + v) % U32;
    UnpackNext(seen, v);
    PlaceOfBits(|seen|);
    ShiftKeepsLowBits(buf, v);
    ByteIsCompleted(place, buf, next, seen[|seen| - 1], v);
  }

  /** One round of the decoder keeps its state right. */
  lemma DecodeStep(seen: seq<sextet>, out: seq<byte>, buf: nat, bits: nat, v: sextet)
    requires Decoded(seen, out, buf, bits) && buf < U32
    ensures var next := (buf * 64 + v) % U32;
            if bits + 6 >= 8
            then Decoded(seen + [v], out + [next / Pow2(bits - 2) % 256], next, bits - 2)
            else Decoded(seen + [v], out, next, bits + 6)
  {
    PlaceOfBits(|seen|);
    if |seen| % 4 == 0 {
      QuadStarts(seen, out, buf, v);
    } else {
      QuadGoesOn(seen, out, buf, bits, v);
    }
  }

  /** The accumulating decoder: the 32-bit buffer is never cleared, only its low bits are live. */
  method DecodeBase64(s: seq<byte>) returns (out: seq<byte>)
    ensures out == Unpack(Sextets(s))
  {
    out := [];
    var buf: nat, bits: nat := 0, 0;
    ghost var seen: seq<sextet> := [];
    ghost var stopped := false;
    assert s[0..] == s;
    for i := 0 to |s|
      invariant !stopped && seen + Sextets(s[i..]) == Sextets(s)
      invariant buf < U32
      invariant Decoded(seen, out, buf, bits)
    {
      var c := s[i];
      assert s[i..][1..] == s[i + 1..];
      if c == PAD {
        ConcatEmpty(seen);
        DecodedUnpacks(seen, out, buf, bits);
        return;
      }
      var v := Val(c);
      if v.None? {
        continue;
      }
      ConcatAssociates(seen, [v.value], Sextets(s[i + 1..]));
      DecodeStep(seen, out, buf, bits, v.value);
      seen := seen + [v.value];
      buf := (buf * 64 + v.value) % U32;
      bits := bits + 6;
      if bits >= 8 {
        bits := bits - 8;
        out := out + [buf / Pow2(bits) % 256];
      }
    }
    ConcatEmpty(seen);
    DecodedUnpacks(seen, out, buf, bits);
  }

  // ---- Round trip ----

  /** The sextets that three bytes are cut into. */
  lemma SextetsOfBytes(b0: byte, b1: byte, b2: byte)
    ensures var n := b0 * 0x1_0000 + b1 * 0x100 + b2;
            && n / 0x4_0000 % 64 == b0 / 4
            && n / 0x1000 % 64 == b0 % 4 * 16 + b1 / 16
            && n / 64 % 64 == b1 % 16 * 4 + b2 / 64
            && n % 64 == b2 % 64
  {
    Div(0x4_0000, b0 / 4, b0 % 4 * 0x1_0000 + b1 * 0x100 + b2);
    Div(0x1000, b0 * 16 + b1 / 16, b1 % 16 * 0x100 + b2);
    Div(64, b0 / 4, b0 % 4 * 16 + b1 / 16);
    Div(64, b0 * 1024 + b1 * 4 + b2 / 64, b2 % 64);
    Div(64, b0 * 16 + b1 / 16, b1 % 16 * 4 + b2 / 64);
  }

  /** Foreign bytes: neither in the alphabet nor padding. */
  predicate Foreign(c: byte) {
    Val(c).None? && c != PAD
  }

  /** A text without its foreign bytes. */
  function Strip(s: seq<byte>): seq<byte> {
    if s == [] then []
    else if Foreign(s[0]) then Strip(s[1..])
    else [s[0]] + Strip(s[1..])
  }

  lemma {:induction false} SextetsIgnoreForeign(s: seq<byte>)
    ensures Sextets(s) == Sextets(Strip(s))
  {
    if s != [] {
      SextetsIgnoreForeign(s[1..]);
      if !Foreign(s[0]) {
        assert Strip(s)[1..] == Strip(s[1..]);
      }
    }
  }

  /** The four sextets of three bytes. */
  function CutQuad(b0: byte, b1: byte, b2: byte): (q: seq<sextet>)
    ensures |q| == 4
  {
    [b0 / 4, b0 % 4 * 16 + b1 / 16, b1 % 16 * 4 + b2 / 64, b2 % 64]
  }

  /** The sextets of an encoding, read off the bytes. */
  function Cut(x: seq<byte>): seq<sextet> {
    if |x| == 0 then []
    else if |x| == 1 then CutQuad(x[0], 0, 0)[..2]
    else if |x| == 2 then CutQuad(x[0], x[1], 0)[..3]
    else CutQuad(x[0], x[1], x[2]) + Cut(x[3..])
  }

  lemma SextetsCons(v: sextet, rest: seq<byte>)
    ensures Sextets([Table(v)] + rest) == [v] + Sextets(rest)
  {
    ValOfTable(v);
    assert ([Table(v)] + rest)[1..] == rest;
  }

  function Chars(q: seq<sextet>): seq<byte>
    requires |q| == 4
  {
    [Table(q[0]), Table(q[1]), Table(q[2]), Table(q[3])]
  }

  lemma FourSextets(q: seq<sextet>, rest: seq<byte>)
    requires |q| == 4
    ensures Sextets(Chars(q) + rest) == q + Sextets(rest)
  {
    var r3 := [Table(q[3])] + rest;
    var r2 := [Table(q[2])] + r3;
    var r1 := [Table(q[1])] + r2;
    assert Chars(q) + rest == [Table(q[0])] + r1;
    SextetsCons(q[0], r1);
    SextetsCons(q[1], r2);
    SextetsCons(q[2], r3);
    SextetsCons(q[3], rest);
    assert [q[0]] + ([q[1]] + ([q[2]] + ([q[3]] + Sextets(rest)))) == q + Sextets(rest);
  }

  lemma PaddedSextets(q: seq<sextet>)
    requires |q| == 4
    ensures Sextets([Table(q[0]), Table(q[1]), PAD, PAD]) == q[..2]
    ensures Sextets([Table(q[0]), Table(q[1]), Table(q[2]), PAD]) == q[..3]
  {
    SextetsCons(q[0], [Table(q[1]), PAD, PAD]);
    SextetsCons(q[1], [PAD, PAD]);
    assert [Table(q[0])] + [Table(q[1]), PAD, PAD] == [Table(q[0]), Table(q[1]), PAD, PAD];
    assert [Table(q[1])] + [PAD, PAD] == [Table(q[1]), PAD, PAD];
    SextetsCons(q[0], [Table(q[1]), Table(q[2]), PAD]);
    SextetsCons(q[1], [Table(q[2]), PAD]);
    SextetsCons(q[2], [PAD]);
    assert [Table(q[0])] + [Table(q[1]), Table(q[2]), PAD] == [Table(q[0]), Table(q[1]), Table(q[2]), PAD];
    assert [Table(q[1])] + [Table(q[2]), PAD] == [Table(q[1]), Table(q[2]), PAD];
    assert [Table(q[2])] + [PAD] == [Table(q[2]), PAD];
  }

  lemma QuadChars(b0: byte, b1: byte, b2: byte)
    ensures var c := Chars(CutQuad(b0, b1, b2));
            && Quad(b0, b1, b2, 3) == c
            && Quad(b0, b1, b2, 2) == [c[0], c[1], c[2], PAD]
            && Quad(b0, b1, b2, 1) == [c[0], c[1], PAD, PAD]
  {
    SextetsOfBytes(b0, b1, b2);
  }

  lemma {:induction false} SextetsOfEncoding(x: seq<byte>)
    ensures Sextets(Encoding(x)) == Cut(x)
  {
    if |x| >= 3 {
      SextetsOfEncoding(x[3..]);
      QuadChars(x[0], x[1], x[2]);
      FourSextets(CutQuad(x[0], x[1], x[2]), Encoding(x[3..]));
    } else if |x| == 2 {
      QuadChars(x[0], x[1], 0);
      PaddedSextets(CutQuad(x[0], x[1], 0));
    } else if |x| == 1 {
      QuadChars(x[0], 0, 0);
      PaddedSextets(CutQuad(x[0], 0, 0));
    }
  }

  /** What the first sextets of a quad pack to. */
  lemma UnpackQuad(q: seq<sextet>)
    requires |q| == 4
    ensures Unpack(q[..2]) == [First(q[0], q[1])]
    ensures Unpack(q[..3]) == [First(q[0], q[1]), Second(q[1], q[2])]
    ensures Unpack(q) == [First(q[0], q[1]), Second(q[1], q[2]), Third(q[2], q[3])]
  {
    UnpackNext([], q[0]);
    assert [] + [q[0]] == [q[0]] && [q[0]] + [q[1]] == q[..2];
    UnpackNext([q[0]], q[1]);
    ConcatEmpty([First(q[0], q[1])]);
    UnpackNext(q[..2], q[2]);
    assert q[..2] + [q[2]] == q[..3];
    UnpackNext(q[..3], q[3]);
    assert q[..3] + [q[3]] == q;
  }

  lemma SamePlaceAfterQuad(quad: seq<sextet>, vs: seq<sextet>)
    requires |quad| == 4
    ensures |quad + vs| % 4 == |vs| % 4
    ensures vs != [] ==> (quad + vs)[|quad + vs| - 1] == vs[|vs| - 1]
  {
  }

  lemma UnpackNextAfterQuad(quad: seq<sextet>, vs: seq<sextet>, v: sextet)
    requires |quad| == 4 && Unpack(quad + vs) == Unpack(quad) + Unpack(vs)
    ensures Unpack((quad + vs) + [v]) == Unpack(quad) + Unpack(vs + [v])
  {
    SamePlaceAfterQuad(quad, vs);
    UnpackNext(vs, v);
    UnpackNext(quad + vs, v);
    if |vs| % 4 != 0 {
      ConcatAssociates(Unpack(quad), Unpack(vs), [Completed(|vs| % 4, vs[|vs| - 1], v)]);
    }
  }

  /** A whole quad at the front puts out its three bytes and shifts nothing else. */
  lemma {:induction false} UnpackAfterQuad(quad: seq<sextet>, vs: seq<sextet>)
    requires |quad| == 4
    ensures Unpack(quad + vs) == Unpack(quad) + Unpack(vs)
  {
    if vs == [] {
      ConcatEmpty(quad);
      ConcatEmpty(Unpack(quad));
    } else {
      var front, last := vs[..|vs| - 1], vs[|vs| - 1];
      UnpackAfterQuad(quad, front);
      UnpackNextAfterQuad(quad, front, last);
      assert front + [last] == vs;
      ConcatAssociates(quad, front, [last]);
    }
  }

  lemma JoinedBytes(b0: byte, b1: byte, b2: byte)
    ensures var q := CutQuad(b0, b1, b2);
            First(q[0], q[1]) == b0 && Second(q[1], q[2]) == b1 && Third(q[2], q[3]) == b2
  {
    Div(16, b0 % 4, b1 / 16);
    Div(4, b1 % 16, b2 / 64);
  }

  lemma UnpackJoined(q: seq<sextet>, b0: byte, b1: byte, b2: byte)
    requires |q| == 4 && First(q[0], q[1]) == b0 && Second(q[1], q[2]) == b1 && Third(q[2], q[3]) == b2
    ensures Unpack(q) == [b0, b1, b2] && Unpack(q[..2]) == [b0] && Unpack(q[..3]) == [b0, b1]
  {
    UnpackQuad(q);
  }

  /** The sextets cut from three bytes pack to these bytes. */
  lemma UnpackBytes(b0: byte, b1: byte, b2: byte)
    ensures var q := CutQuad(b0, b1, b2);
            Unpack(q) == [b0, b1, b2] && Unpack(q[..2]) == [b0] && Unpack(q[..3]) == [b0, b1]
  {
    JoinedBytes(b0, b1, b2);
    UnpackJoined(CutQuad(b0, b1, b2), b0, b1, b2);
  }

  lemma FirstThree(x: seq<byte>)
    requires |x| >= 3
    ensures x == [x[0], x[1], x[2]] + x[3..]
  {
  }

  lemma {:induction false} UnpackCut(x: seq<byte>)
    ensures Unpack(Cut(x)) == x
  {
    if |x| == 1 {
      UnpackBytes(x[0], 0, 0);
    } else if |x| == 2 {
      UnpackBytes(x[0], x[1], 0);
    } else if |x| >= 3 {
      UnpackCut(x[3..]);
      UnpackAfterQuad(CutQuad(x[0], x[1], x[2]), Cut(x[3..]));
      UnpackBytes(x[0], x[1], x[2]);
      FirstThree(x);
    }
  }

  /** Decoding an encoding gives back the bytes, whatever foreign bytes, such as the line
      breaks of the remote tool, were inserted anywhere. */
  lemma RoundTrip(x: seq<byte>, s: seq<byte>)
    requires Strip(s) == Encoding(x)
    ensures Unpack(Sextets(s)) == x
  {
    SextetsIgnoreForeign(s);
    SextetsOfEncoding(x);
    UnpackCut(x);
  }

  lemma EncodingLengthStep(x: seq<byte>)
    ensures |x| >= 3 ==> |Encoding(x)| == 4 + |Encoding(x[3..])|
    ensures |x| < 3 ==> |Encoding(x)| == if x == [] then 0 else 4
  {
  }

  lemma ThreeMore(n: nat)
    ensures n >= 3 ==> (n + 2) / 3 == 1 + (n - 1) / 3
    ensures n < 3 ==> (n + 2) / 3 == if n == 0 then 0 else 1
  {
  }

  lemma {:induction false} EncodingLength(x: seq<byte>)
    ensures |Encoding(x)| == (|x| + 2) / 3 * 4
    decreases |x|
  {
    EncodingLengthStep(x);
    ThreeMore(|x|);
    if |x| >= 3 {
      EncodingLength(x[3..]);
    }
  }

  lemma TableIsKnown(v: sextet)
    ensures !Foreign(Table(v))
  {
    ValOfTable(v);
  }

  lemma QuadIsKnown(b0: byte, b1: byte, b2: byte, len: nat)
    requires 1 <= len <= 3
    ensures forall c :: c in Quad(b0, b1, b2, len) ==> !Foreign(c)
  {
    var n := b0 * 0x1_0000 + b1 * 0x100 + b2;
    TableIsKnown(n / 0x4_0000 % 64);
    TableIsKnown(n / 0x1000 % 64);
    TableIsKnown(n / 64 % 64);
    TableIsKnown(n % 64);
  }

  lemma {:induction false} EncodingIsKnown(x: seq<byte>)
    ensures forall c :: c in Encoding(x) ==> !Foreign(c)
  {
    if |x| >= 3 {
      EncodingIsKnown(x[3..]);
      QuadIsKnown(x[0], x[1], x[2], 3);
    } else if |x| == 2 {
      QuadIsKnown(x[0], x[1], 0, 2);
    } else if |x| == 1 {
      QuadIsKnown(x[0], 0, 0, 1);
    }
  }

  /** The encoding itself has no foreign bytes and four characters for every three bytes begun. */
  lemma EncodingShape(x: seq<byte>)
    ensures |Encoding(x)| == (|x| + 2) / 3 * 4
    ensures forall c :: c in Encoding(x) ==> !Foreign(c)
  {
    EncodingLength(x);
    EncodingIsKnown(x);
  }

  // ---- An encoding that was cut ----

  lemma CutAfterQuad(quad: seq<byte>, rest: seq<byte>, q: nat)
    requires |quad| == 4 && 0 < q && 4 * q <= 4 + |rest|
    ensures (quad + rest)[..4 * q] == quad + rest[..4 * (q - 1)]
  {
  }

  /** Whole quads of an encoding are the encoding of the first bytes. */
  lemma {:induction false} EncodingOfFirstBytes(x: seq<byte>, q: nat)
    requires 4 * q <= |Encoding(x)|
    ensures Encoding(x)[..4 * q] == Encoding(x[..Min(3 * q, |x|)])
  {
    EncodingLength(x);
    if q > 0 && |x| >= 3 {
      var y := x[..Min(3 * q, |x|)];
      CutAfterQuad(Quad(x[0], x[1], x[2], 3), Encoding(x[3..]), q);
      EncodingOfFirstBytes(x[3..], q - 1);
      assert y[3..] == x[3..][..Min(3 * (q - 1), |x| - 3)];
    } else if q > 0 {
      assert x[..|x|] == x;
    }
  }

  /** An encoding that is cut after whole quads decodes to the first bytes, without any error. */
  lemma CutEncodingDecodes(x: seq<byte>, q: nat)
    requires 4 * q <= |Encoding(x)|
    ensures Unpack(Sextets(Encoding(x)[..4 * q])) == x[..Min(3 * q, |x|)]
  {
    EncodingOfFirstBytes(x, q);
    SextetsOfEncoding(x[..Min(3 * q, |x|)]);
    UnpackCut(x[..Min(3 * q, |x|)]);
  }
}
