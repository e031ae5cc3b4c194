/** The base64 encoding of section 4 of RFC 4648 (standard alphabet, `=`
    padding), used for the HTTP Basic authorization header. */
module Base64 {
  import opened Wrappers

  type Byte = x: int | 0 <= x < 256
  type Sextet = x: int | 0 <= x < 64

  /** The character for a 6-bit value (Table 1 of RFC 4648). */
  function CharOf(v: Sextet): char {
    if v < 26 then ('A' as int + v) as char
    else if v < 52 then ('a' as int + (v - 26)) as char
    else if v < 62 then ('0' as int + (v - 52)) as char
    else if v == 62 then '+'
    else '/'
  }

  /** The 6-bit value of an alphabet character; `None` outside the alphabet. */
  function SextetOf(c: char): Option<Sextet> {
    if 'A' <= c <= 'Z' then Some(c as int - 'A' as int)
    else if 'a' <= c <= 'z' then Some(c as int - 'a' as int + 26)
    else if '0' <= c <= '9' then Some(c as int - '0' as int + 52)
    else if c == '+' then Some(62)
    else if c == '/' then Some(63)
    else None
  }

  /** The alphabet is decoded back to its values and never yields padding. */
  lemma CharOfSextet(v: Sextet)
    ensures CharOf(v) != '=' && SextetOf(CharOf(v)) == Some(v)
  {
  }

  // The four sextets of a 24-bit group a b c, most significant first.
  function S0(a: Byte): Sextet { a / 4 }
  function S1(a: Byte, b: Byte): Sextet { (a % 4) * 16 + b / 16 }
  function S2(b: Byte, c: Byte): Sextet { (b % 16) * 4 + c / 64 }
  function S3(c: Byte): Sextet { c % 64 }

  // Reassembling bytes from sextets.
  function B0(s0: Sextet, s1: Sextet): Byte { s0 * 4 + s1 / 16 }
  function B1(s1: Sextet, s2: Sextet): Byte { (s1 % 16) * 16 + s2 / 4 }
  function B2(s2: Sextet, s3: Sextet): Byte { (s2 % 4) * 64 + s3 }

  lemma Split16(x: int, y: int)
    requires 0 <= y < 16
    ensures (x * 16 + y) / 16 == x && (x * 16 + y) % 16 == y
  {
  }

  lemma Split4(x: int, y: int)
    requires 0 <= y < 4
    ensures (x * 4 + y) / 4 == x && (x * 4 + y) % 4 == y
  {
  }

  lemma GroupRoundTrip(a: Byte, b: Byte, c: Byte)
    ensures B0(S0(a), S1(a, b)) == a
    ensures B1(S1(a, b), S2(b, c)) == b
    ensures B2(S2(b, c), S3(c)) == c
  {
    Split16(a % 4, b / 16);
    Split4(b % 16, c / 64);
  }

  lemma GroupCount(n: nat)
    requires n >= 3
    ensures (n + 2) / 3 == (n - 3 + 2) / 3 + 1
  {
  }

  /** Encodes a byte string: every 3 bytes become 4 characters; a final group
      of 1 or 2 bytes is zero-extended and padded with `=`. */
  function Encode(bytes: seq<Byte>): string {
    if |bytes| >= 3 then
      var a, b, c := bytes[0], bytes[1], bytes[2];
      [CharOf(S0(a)), CharOf(S1(a, b)), CharOf(S2(b, c)), CharOf(S3(c))] + Encode(bytes[3..])
    else if |bytes| == 2 then
      var a, b := bytes[0], bytes[1];
      [CharOf(S0(a)), CharOf(S1(a, b)), CharOf(S2(b, 0)), '=']
    else if |bytes| == 1 then
      var a := bytes[0];
      [CharOf(S0(a)), CharOf(S1(a, 0)), '=', '=']
    else
      []
  }

  /** Every 3 bytes, and a final group of 1 or 2, take 4 characters. */
  lemma {:induction false} EncodeLength(bytes: seq<Byte>)
    ensures |Encode(bytes)| == 4 * ((|bytes| + 2) / 3)
  {
    if |bytes| >= 3 {
      GroupCount(|bytes|);
      EncodeLength(bytes[3..]);
    }
  }

  /** Decodes a padded base64 string; `None` when a character is outside the
      alphabet, the length is not a multiple of 4, or padding is misplaced. */
  function Decode(s: string): Option<seq<Byte>>
    decreases |s|
  {
    if s == [] then Some([])
    else if |s| < 4 then None
    else
      var o0, o1 := SextetOf(s[0]), SextetOf(s[1]);
      if o0.None? || o1.None? then None
      else if |s| == 4 && s[2] == '=' && s[3] == '=' then
        Some([B0(o0.value, o1.value)])
      else
        var o2 := SextetOf(s[2]);
        if o2.None? then None
        else if |s| == 4 && s[3] == '=' then
          Some([B0(o0.value, o1.value), B1(o1.value, o2.value)])
        else
          var o3 := SextetOf(s[3]);
          if o3.None? then None
          else
            var rest := Decode(s[4..]);
            if rest.None? then None
            else Some([B0(o0.value, o1.value), B1(o1.value, o2.value), B2(o2.value, o3.value)] + rest.value)
  }

  /** Decoding a full group of four alphabet characters followed by more text. */
  lemma DecodeFullGroup(a: Byte, b: Byte, c: Byte, rest: string)
    requires Decode(rest).Some?
    ensures Decode([CharOf(S0(a)), CharOf(S1(a, b)), CharOf(S2(b, c)), CharOf(S3(c))] + rest)
         == Some([a, b, c] + Decode(rest).value)
  {
    var s := [CharOf(S0(a)), CharOf(S1(a, b)), CharOf(S2(b, c)), CharOf(S3(c))] + rest;
    GroupRoundTrip(a, b, c);
    CharOfSextet(S0(a));
    CharOfSextet(S1(a, b));
    CharOfSextet(S2(b, c));
    CharOfSextet(S3(c));
    assert s[4..] == rest;
    assert s[2] != '=' && s[3] != '=';
  }

  lemma DecodeTwoBytes(a: Byte, b: Byte)
    ensures Decode([CharOf(S0(a)), CharOf(S1(a, b)), CharOf(S2(b, 0)), '=']) == Some([a, b])
  {
    GroupRoundTrip(a, b, 0);
    CharOfSextet(S0(a));
    CharOfSextet(S1(a, b));
    CharOfSextet(S2(b, 0));
  }

  lemma DecodeOneByte(a: Byte)
    ensures Decode([CharOf(S0(a)), CharOf(S1(a, 0)), '=', '=']) == Some([a])
  {
    var s0, s1 := S0(a), S1(a, 0);
    assert B0(s0, s1) == a by { Split16(a % 4, 0); }
    var s: string := [CharOf(s0), CharOf(s1), '=', '='];
    CharOfSextet(s0);
    CharOfSextet(s1);
    assert SextetOf(s[0]) == Some(s0) && SextetOf(s[1]) == Some(s1);
    assert Decode(s) == Some([B0(s0, s1)]);
  }

  /** Encoding one full group in front of the rest of the input. */
  lemma EncodeGroup(a: Byte, b: Byte, c: Byte, rest: seq<Byte>)
    ensures Encode([a, b, c] + rest)
         == [CharOf(S0(a)), CharOf(S1(a, b)), CharOf(S2(b, c)), CharOf(S3(c))] + Encode(rest)
  {
    assert ([a, b, c] + rest)[3..] == rest;
  }

  /** Decoding undoes encoding, so the header carries the credentials intact. */
  lemma {:induction false} DecodeEncode(bytes: seq<Byte>)
    ensures Decode(Encode(bytes)) == Some(bytes)
  {
    if |bytes| >= 3 {
      var rest := bytes[3..];
      assert bytes == [bytes[0], bytes[1], bytes[2]] + rest;
      EncodeGroup(bytes[0], bytes[1], bytes[2], rest);
      DecodeEncode(rest);
      DecodeFullGroup(bytes[0], bytes[1], bytes[2], Encode(rest));
    } else if |bytes| == 2 {
      DecodeTwoBytes(bytes[0], bytes[1]);
      assert bytes == [bytes[0], bytes[1]];
    } else if |bytes| == 1 {
      DecodeOneByte(bytes[0]);
      assert bytes == [bytes[0]];
    }
  }

  lemma EncodeInjective(x: seq<Byte>, y: seq<Byte>)
    ensures Encode(x) == Encode(y) <==> x == y
  {
    DecodeEncode(x);
    DecodeEncode(y);
  }

  /** Every character of an encoding is in the alphabet or is padding. */
  lemma {:induction false} EncodeAlphabet(bytes: seq<Byte>)
    ensures forall i :: 0 <= i < |Encode(bytes)| ==>
      Encode(bytes)[i] == '=' || SextetOf(Encode(bytes)[i]).Some?
  {
    if |bytes| >= 3 {
      EncodeAlphabet(bytes[3..]);
      CharOfSextet(S0(bytes[0]));
      CharOfSextet(S1(bytes[0], bytes[1]));
      CharOfSextet(S2(bytes[1], bytes[2]));
      CharOfSextet(S3(bytes[2]));
    } else if |bytes| == 2 {
      CharOfSextet(S0(bytes[0]));
      CharOfSextet(S1(bytes[0], bytes[1]));
      CharOfSextet(S2(bytes[1], 0));
    } else if |bytes| == 1 {
      CharOfSextet(S0(bytes[0]));
      CharOfSextet(S1(bytes[0], 0));
    }
  }

  /** The bytes of a string whose characters are all below 256 (as Go holds
      an ASCII string literal). */
  function Latin1(s: string): (r: seq<Byte>)
    requires forall i :: 0 <= i < |s| ==> s[i] as int < 256
    ensures |r| == |s| && forall i :: 0 <= i < |s| ==> r[i] == s[i] as int
  {
    seq(|s|, i requires 0 <= i < |s| => s[i] as int)
  }

  /** Latin-1 bytes of a concatenation are the concatenated bytes. */
  lemma Latin1Concat(s: string, t: string)
    requires forall i :: 0 <= i < |s| ==> s[i] as int < 256
    requires forall i :: 0 <= i < |t| ==> t[i] as int < 256
    ensures Latin1(s + t) == Latin1(s) + Latin1(t)
  {
  }

  /** Whole groups encode independently of what follows them. */
  lemma {:induction false} EncodeConcat(x: seq<Byte>, y: seq<Byte>)
    requires |x| % 3 == 0
    ensures Encode(x + y) == Encode(x) + Encode(y)
  {
    if x == [] {
      assert x + y == y;
    } else {
      assert (x + y)[3..] == x[3..] + y;
      EncodeConcat(x[3..], y);
    }
  }

  lemma EncodeConcat3(x: seq<Byte>, y: seq<Byte>, z: seq<Byte>)
    requires |x| % 3 == 0 && |y| % 3 == 0
    ensures Encode(x + (y + z)) == Encode(x) + (Encode(y) + Encode(z))
  {
    EncodeConcat(y, z);
    EncodeConcat(x, y + z);
  }

  lemma EncodeConcat4(w: seq<Byte>, x: seq<Byte>, y: seq<Byte>, z: seq<Byte>)
    requires |w| % 3 == 0 && |x| % 3 == 0 && |y| % 3 == 0
    ensures Encode(w + (x + (y + z))) == Encode(w) + (Encode(x) + (Encode(y) + Encode(z)))
  {
    EncodeConcat3(x, y, z);
    EncodeConcat(w, x + (y + z));
  }

  // The credentials of the configuration tests, encoded a few groups at a
  // time; "test:blerg" and "test:password_in_file" are Latin-1 text. Each
  // group is a lemma of its own, so that every evaluation of `Encode` the
  // verifier unfolds stays a few groups long; the examples below join them.

  lemma BlergText()
    ensures Latin1("test:blerg") == [116, 101, 115, 116, 58, 98] + ([108, 101, 114] + [103])
  {
  }

  lemma BlergFront()
    ensures Encode([116, 101, 115, 116, 58, 98]) == "dGVzdDpi"
  {
  }

  lemma BlergMiddle()
    ensures Encode([108, 101, 114]) == "bGVy"
  {
  }

  lemma BlergBack()
    ensures Encode([103]) == "Zw=="
  {
  }

  lemma BlergJoined()
    ensures "dGVzdDpi" + ("bGVy" + "Zw==") == "dGVzdDpibGVyZw=="
  {
  }

  lemma BlergJoin(x: seq<Byte>, y: seq<Byte>, z: seq<Byte>)
    requires |x| == 6 && |y| == 3
    requires Encode(x) == "dGVzdDpi" && Encode(y) == "bGVy" && Encode(z) == "Zw=="
    ensures Encode(x + (y + z)) == "dGVzdDpibGVyZw=="
  {
    EncodeConcat3(x, y, z);
    BlergJoined();
  }

  /** The encoding of the literal credentials of the configuration tests. */
  lemma EncodeLiteralExample()
    ensures Encode(Latin1("test:blerg")) == "dGVzdDpibGVyZw=="
  {
    BlergText();
    BlergFront();
    BlergMiddle();
    BlergBack();
    BlergJoin([116, 101, 115, 116, 58, 98], [108, 101, 114], [103]);
  }

  lemma FileText()
    ensures Latin1("test:password_in_file") == [116, 101, 115, 116, 58, 112]
                       + ([97, 115, 115, 119, 111, 114] + ([100, 95, 105, 110, 95, 102] + [105, 108, 101]))
  {
  }

  lemma FileFront()
    ensures Encode([116, 101, 115, 116, 58, 112]) == "dGVzdDpw"
  {
  }

  lemma FileSecond()
    ensures Encode([97, 115, 115, 119, 111, 114]) == "YXNzd29y"
  {
  }

  lemma FileThird()
    ensures Encode([100, 95, 105, 110, 95, 102]) == "ZF9pbl9m"
  {
  }

  lemma FileBack()
    ensures Encode([105, 108, 101]) == "aWxl"
  {
  }

  lemma FileJoined()
    ensures "dGVzdDpw" + ("YXNzd29y" + ("ZF9pbl9m" + "aWxl")) == "dGVzdDpwYXNzd29yZF9pbl9maWxl"
  {
  }

  lemma FileJoin(w: seq<Byte>, x: seq<Byte>, y: seq<Byte>, z: seq<Byte>)
    requires |w| == 6 && |x| == 6 && |y| == 6
    requires Encode(w) == "dGVzdDpw" && Encode(x) == "YXNzd29y" && Encode(y) == "ZF9pbl9m" && Encode(z) == "aWxl"
    ensures Encode(w + (x + (y + z))) == "dGVzdDpwYXNzd29yZF9pbl9maWxl"
  {
    EncodeConcat4(w, x, y, z);
    FileJoined();
  }

  /** The encoding of the file-held credentials of the configuration tests. */
  lemma EncodeFileExample()
    ensures Encode(Latin1("test:password_in_file")) == "dGVzdDpwYXNzd29yZF9pbl9maWxl"
  {
    FileText();
    FileFront();
    FileSecond();
    FileThird();
    FileBack();
    FileJoin([116, 101, 115, 116, 58, 112], [97, 115, 115, 119, 111, 114], [100, 95, 105, 110, 95, 102],
             [105, 108, 101]);
  }
}
