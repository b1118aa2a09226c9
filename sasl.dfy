/**
 * The SASL PLAIN credential string (section 2 of RFC 4616), its UTF-8
 * encoding and its base64 rendering (section 4 of RFC 4648), as
 * core/protocol.py builds them for `AUTHENTICATE`.
 */
module Sasl {
  import opened Wrappers

  type Byte = x: int | 0 <= x < 256

  // ---------------------------------------------------------------------------
  // UTF-8

  /** The UTF-8 encoding of one Unicode scalar value. */
  function EncodeChar(c: char): (r: seq<Byte>)
    ensures 1 <= |r| <= 4
    ensures (r == [0]) <==> c == '\0'
    ensures |r| > 1 ==> forall k :: 0 <= k < |r| ==> r[k] >= 0x80
    ensures |r| == 1 <==> (c as int) < 0x80
  {
    var cp := c as int;
    if cp < 0x80 then [cp]
    else if cp < 0x800 then [0xC0 + cp / 64, 0x80 + cp % 64]
    else if cp < 0x1_0000 then [0xE0 + cp / 4096, 0x80 + (cp / 64) % 64, 0x80 + cp % 64]
    else [0xF0 + cp / 262144, 0x80 + (cp / 4096) % 64, 0x80 + (cp / 64) % 64, 0x80 + cp % 64]
  }

  /** `s.encode('utf-8')`. */
  function Utf8(s: string): (r: seq<Byte>)
    ensures |r| >= |s|
    decreases |s|
  {
    if s == [] then [] else EncodeChar(s[0]) + Utf8(s[1..])
  }

  /** A zero byte appears in the encoding exactly where a NUL character appears in the text. */
  lemma {:induction false} Utf8Nul(s: string)
    ensures 0 in Utf8(s) <==> '\0' in s
    decreases |s|
  {
    if s != [] {
      Utf8Nul(s[1..]);
      var h := EncodeChar(s[0]);
      assert Utf8(s) == h + Utf8(s[1..]);
      assert 0 in h <==> s[0] == '\0';
      assert s == [s[0]] + s[1..];
    }
  }

  lemma Utf8Append(a: string, b: string)
    ensures Utf8(a + b) == Utf8(a) + Utf8(b)
    decreases |a|
  {
    if a == [] {
      assert a + b == b;
    } else {
      assert (a + b)[1..] == a[1..] + b;
      Utf8Append(a[1..], b);
    }
  }

  /** ASCII text encodes one byte per character, the byte being the code point. */
  lemma {:induction false} Utf8Ascii(s: string)
    requires forall k :: 0 <= k < |s| ==> (s[k] as int) < 0x80
    ensures |Utf8(s)| == |s|
    ensures forall k :: 0 <= k < |s| ==> Utf8(s)[k] == s[k] as int
    decreases |s|
  {
    if s != [] {
      Utf8Ascii(s[1..]);
    }
  }

  // ---------------------------------------------------------------------------
  // PLAIN (RFC 4616 section 2: message = [authzid] NUL authcid NUL passwd)

  /**
   * `f"{user}\x00{user}\x00{password}".encode('utf-8')`: the authorization
   * identity and the authentication identity are both the configured user.
   */
  function PlainMessage(user: string, password: string): seq<Byte> {
    Utf8(user + ['\0'] + user + ['\0'] + password)
  }

  /** The message is the three encoded fields separated by single zero bytes. */
  lemma PlainMessageLayout(user: string, password: string)
    ensures PlainMessage(user, password) == Utf8(user) + [0] + Utf8(user) + [0] + Utf8(password)
  {
    var rest := user + ['\0'] + password;
    assert user + ['\0'] + user + ['\0'] + password == user + ['\0'] + rest;
    NulSeparated(user, rest);
    NulSeparated(user, password);
  }

  /** A NUL character between two texts encodes as a zero byte between their encodings. */
  lemma NulSeparated(a: string, b: string)
    ensures Utf8(a + ['\0'] + b) == Utf8(a) + [0] + Utf8(b)
  {
    Utf8Append(a + ['\0'], b);
    Utf8Append(a, ['\0']);
    assert Utf8(['\0']) == [0] + Utf8([]);
  }

  /** The first position of a zero byte. */
  function FindNul(b: seq<Byte>): (r: Option<nat>)
    ensures r.Some? ==> r.value < |b| && b[r.value] == 0 && 0 !in b[..r.value]
    ensures r.None? <==> 0 !in b
    decreases |b|
  {
    if b == [] then None
    else if b[0] == 0 then Some(0)
    else match FindNul(b[1..])
      case None => None
      case Some(i) =>
        assert b[..i + 1] == [b[0]] + b[1..][..i];
        Some(i + 1)
  }

  /** What a server does with a PLAIN message: split it at its first two NUL bytes. */
  function ParsePlain(m: seq<Byte>): Option<(seq<Byte>, seq<Byte>, seq<Byte>)> {
    match FindNul(m)
    case None => None
    case Some(i) =>
      var rest := m[i + 1..];
      match FindNul(rest)
      case None => None
      case Some(j) => Some((m[..i], rest[..j], rest[j + 1..]))
  }

  lemma FindNulAfter(a: seq<Byte>, tail: seq<Byte>)
    requires 0 !in a
    ensures FindNul(a + [0] + tail) == Some(|a|)
  {
    var m := a + [0] + tail;
    assert m[|a|] == 0;
    var k := FindNul(m);
    assert k.Some?;
    assert forall x :: 0 <= x < k.value ==> m[..k.value][x] == m[x];
    assert forall x :: 0 <= x < |a| ==> m[x] == a[x];
    assert k.value == |a|;
  }

  lemma ParseFields(a: seq<Byte>, b: seq<Byte>, c: seq<Byte>)
    requires 0 !in a && 0 !in b
    ensures ParsePlain(a + [0] + b + [0] + c) == Some((a, b, c))
  {
    var rest := b + [0] + c;
    var m := a + [0] + rest;
    assert a + [0] + b + [0] + c == m;
    FindNulAfter(a, rest);
    FindNulAfter(b, c);
    assert m[|a| + 1..] == rest;
    assert m[..|a|] == a;
    assert rest[..|b|] == b;
    assert rest[|b| + 1..] == c;
  }

  /**
   * The server recovers authzid, authcid and password exactly, provided the
   * user name holds no NUL character (the password may hold anything).
   */
  lemma PlainRoundTrip(user: string, password: string)
    requires '\0' !in user
    ensures ParsePlain(PlainMessage(user, password)) == Some((Utf8(user), Utf8(user), Utf8(password)))
  {
    Utf8Nul(user);
    PlainMessageLayout(user, password);
    ParseFields(Utf8(user), Utf8(user), Utf8(password));
  }

  // ---------------------------------------------------------------------------
  // base64 (RFC 4648 section 4, with '=' padding)

  /** The alphabet of Table 1 of RFC 4648: A-Z, a-z, 0-9, '+', '/'. */
  function Symbol(x: Sextet): (c: char)
    ensures IsSymbol(c)
  {
    if x < 26 then ('A' as int + x) as char
    else if x < 52 then ('a' as int + (x - 26)) as char
    else if x < 62 then ('0' as int + (x - 52)) as char
    else if x == 62 then '+'
    else '/'
  }

  predicate IsSymbol(c: char) {
    'A' <= c <= 'Z' || 'a' <= c <= 'z' || '0' <= c <= '9' || c == '+' || c == '/'
  }

  type Sextet = x: int | 0 <= x < 64

  function IndexOfSymbol(c: char): (r: Option<Sextet>)
    ensures r.Some? ==> Symbol(r.value) == c
    ensures r.None? <==> !IsSymbol(c)
  {
    if 'A' <= c <= 'Z' then Some(c as int - 'A' as int)
    else if 'a' <= c <= 'z' then Some(c as int - 'a' as int + 26)
    else if '0' <= c <= '9' then Some(c as int - '0' as int + 52)
    else if c == '+' then Some(62)
    else if c == '/' then Some(63)
    else None
  }

  lemma SymbolIndex(x: Sextet)
    ensures IndexOfSymbol(Symbol(x)) == Some(x)
  {
  }

  /** One full group: three bytes become four symbols. */
  function EncodeGroup(a: Byte, b: Byte, c: Byte): string {
    [Symbol(a / 4), Symbol((a % 4) * 16 + b / 16), Symbol((b % 16) * 4 + c / 64), Symbol(c % 64)]
  }

  /** `base64.b64encode(data).decode('ascii')`. */
  function Encode(data: seq<Byte>): (r: string)
    ensures |r| == 4 * ((|data| + 2) / 3)
    ensures forall k :: 0 <= k < |r| ==> IsSymbol(r[k]) || r[k] == '='
    decreases |data|
  {
    if |data| == 0 then ""
    else if |data| == 1 then
      [Symbol(data[0] / 4), Symbol((data[0] % 4) * 16), '=', '=']
    else if |data| == 2 then
      [Symbol(data[0] / 4), Symbol((data[0] % 4) * 16 + data[1] / 16), Symbol((data[1] % 16) * 4), '=']
    else
      var head, tail := EncodeGroup(data[0], data[1], data[2]), Encode(data[3..]);
      assert forall k :: 0 <= k < 4 ==> IsSymbol(head[k]);
      assert forall k :: 4 <= k < |head + tail| ==> (head + tail)[k] == tail[k - 4];
      head + tail
  }

  /** One quad of symbols; padding ('=') is accepted only in the final quad. */
  function DecodeQuad(q: string, final: bool): Option<seq<Byte>>
    requires |q| == 4
  {
    match (IndexOfSymbol(q[0]), IndexOfSymbol(q[1]), IndexOfSymbol(q[2]), IndexOfSymbol(q[3]))
    case (Some(x0), Some(x1), Some(x2), Some(x3)) =>
      var i0, i1, i2, i3: int := x0, x1, x2, x3;
      Some([i0 * 4 + i1 / 16, (i1 % 16) * 16 + i2 / 4, (i2 % 4) * 64 + i3])
    case (Some(x0), Some(x1), Some(x2), None) =>
      var i0, i1, i2: int := x0, x1, x2;
      if final && q[3] == '=' && i2 % 4 == 0 then Some([i0 * 4 + i1 / 16, (i1 % 16) * 16 + i2 / 4]) else None
    case (Some(x0), Some(x1), None, None) =>
      var i0, i1: int := x0, x1;
      if final && q[2] == '=' && q[3] == '=' && i1 % 16 == 0 then Some([i0 * 4 + i1 / 16]) else None
    case _ => None
  }

  /** The reference decoder. */
  function Decode(s: string): Option<seq<Byte>>
    decreases |s|
  {
    if |s| == 0 then Some([])
    else if |s| < 4 then None
    else match DecodeQuad(s[..4], |s| == 4)
      case None => None
      case Some(h) =>
        match Decode(s[4..])
        case None => None
        case Some(rest) => Some(h + rest)
  }

  lemma DecodeOne(a: Byte)
    ensures DecodeQuad(Encode([a]), true) == Some([a])
  {
    SymbolIndex(a / 4);
    SymbolIndex((a % 4) * 16);
    assert ((a % 4) * 16) / 16 == a % 4;
  }

  lemma DecodeTwo(a: Byte, b: Byte)
    ensures DecodeQuad(Encode([a, b]), true) == Some([a, b])
  {
    var i1, i2 := (a % 4) * 16 + b / 16, (b % 16) * 4;
    SymbolIndex(a / 4);
    SymbolIndex(i1);
    SymbolIndex(i2);
    assert i1 / 16 == a % 4 && i1 % 16 == b / 16 && i2 / 4 == b % 16 && i2 % 4 == 0;
  }

  lemma DecodeThree(a: Byte, b: Byte, c: Byte, final: bool)
    ensures DecodeQuad(EncodeGroup(a, b, c), final) == Some([a, b, c])
  {
    var i1, i2 := (a % 4) * 16 + b / 16, (b % 16) * 4 + c / 64;
    SymbolIndex(a / 4);
    SymbolIndex(i1);
    SymbolIndex(i2);
    SymbolIndex(c % 64);
    assert i1 / 16 == a % 4 && i1 % 16 == b / 16 && i2 / 4 == b % 16 && i2 % 4 == c / 64;
  }

  lemma DecodeFinalQuad(s: string, h: seq<Byte>)
    requires |s| == 4 && DecodeQuad(s, true) == Some(h)
    ensures Decode(s) == Some(h)
  {
    assert s[..4] == s;
    assert Decode(s[4..]) == Some([]);
    assert h + [] == h;
  }

  lemma DecodeCons(s: string, h: seq<Byte>, rest: seq<Byte>)
    requires |s| > 4 && DecodeQuad(s[..4], false) == Some(h) && Decode(s[4..]) == Some(rest)
    ensures Decode(s) == Some(h + rest)
  {
  }

  /** Decoding inverts encoding on every byte string. */
  lemma {:induction false} EncodeDecode(data: seq<Byte>)
    ensures Decode(Encode(data)) == Some(data)
    decreases |data|
  {
    if |data| == 1 {
      EncodeDecodeOne(data);
    } else if |data| == 2 {
      EncodeDecodeTwo(data);
    } else if |data| >= 3 {
      EncodeDecode(data[3..]);
      EncodeDecodeGroup(data);
    }
  }

  lemma {:induction false} EncodeDecodeOne(data: seq<Byte>)
    requires |data| == 1
    ensures Decode(Encode(data)) == Some(data)
  {
    DecodeOne(data[0]);
    assert data == [data[0]];
    DecodeFinalQuad(Encode(data), data);
  }

  lemma {:induction false} EncodeDecodeTwo(data: seq<Byte>)
    requires |data| == 2
    ensures Decode(Encode(data)) == Some(data)
  {
    DecodeTwo(data[0], data[1]);
    assert data == [data[0], data[1]];
    DecodeFinalQuad(Encode(data), data);
  }

  lemma EncodeHead(data: seq<Byte>)
    requires |data| >= 3
    ensures Encode(data) == EncodeGroup(data[0], data[1], data[2]) + Encode(data[3..])
  {
  }

  lemma SplitThree(data: seq<Byte>)
    requires |data| >= 3
    ensures data == [data[0], data[1], data[2]] + data[3..]
  {
  }

  /** A leading group of three bytes decodes before the rest. */
  lemma {:induction false} EncodeDecodeGroup(data: seq<Byte>)
    requires |data| >= 3 && Decode(Encode(data[3..])) == Some(data[3..])
    ensures Decode(Encode(data)) == Some(data)
  {
    var a, b, c := data[0], data[1], data[2];
    var tail := data[3..];
    var s := Encode(data);
    EncodeHead(data);
    SplitThree(data);
    if |tail| == 0 {
      assert s == EncodeGroup(a, b, c);
      DecodeThree(a, b, c, true);
      DecodeFinalQuad(s, [a, b, c]);
    } else {
      DecodeThree(a, b, c, false);
      assert s[..4] == EncodeGroup(a, b, c);
      assert s[4..] == Encode(tail);
      DecodeCons(s, [a, b, c], tail);
    }
  }


  /** The `AUTHENTICATE` payload for PLAIN. */
  function PlainPayload(user: string, password: string): string {
    Encode(PlainMessage(user, password))
  }

  /** A server decoding the payload gets back the configured user (twice) and password. */
  lemma PlainPayloadRecovers(user: string, password: string)
    requires '\0' !in user
    ensures Decode(PlainPayload(user, password)) == Some(PlainMessage(user, password))
    ensures ParsePlain(PlainMessage(user, password)) == Some((Utf8(user), Utf8(user), Utf8(password)))
  {
    EncodeDecode(PlainMessage(user, password));
    PlainRoundTrip(user, password);
  }

  /** A worked value: user "u", password "p" gives "dQB1AHA=". */
  lemma PlainPayloadExample()
    ensures PlainPayload("u", "p") == "dQB1AHA="
  {
    var d: seq<Byte> := [117, 0, 117, 0, 112];
    assert Utf8("u") == [117] + Utf8([]);
    assert Utf8("p") == [112] + Utf8([]);
    PlainMessageLayout("u", "p");
    assert PlainMessage("u", "p") == d;
    assert d[3..] == [0, 112];
    assert Encode(d) == EncodeGroup(117, 0, 117) + Encode([0, 112]);
    assert EncodeGroup(117, 0, 117) == "dQB1";
    assert Encode([0, 112]) == "AHA=";
  }
}
