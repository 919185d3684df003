/** Standard base64 (the alphabet of section 4 of RFC 4648) as `base64.b64decode(content,
    validate=True)` decodes it: strict mode, in which any character outside the alphabet is
    rejected rather than skipped (section 3.3 of RFC 4648), padding may only close the last
    group of four, and nothing may follow it. Like the decoder it models, it does not insist
    that the unused low bits of a padded group are zero. `Encode` is `base64.b64encode`. */
module Base64 {
  import opened Wrappers

  type Byte = b: int | 0 <= b < 256

  /** A 6-bit group, the value of one base64 character. */
  type Sextet = v: int | 0 <= v < 64

  const Pad: char := '='

  predicate IsAlphabetChar(c: char)
  {
    ('A' <= c <= 'Z') || ('a' <= c <= 'z') || ('0' <= c <= '9') || c == '+' || c == '/'
  }

  /** The character of the alphabet that stands for `v`. */
  function SextetChar(v: Sextet): (c: char)
    ensures IsAlphabetChar(c)
  {
    if v < 26 then ('A' as int + v) as char
    else if v < 52 then ('a' as int + (v - 26)) as char
    else if v < 62 then ('0' as int + (v - 52)) as char
    else if v == 62 then '+'
    else '/'
  }

  /** The value of an alphabet character; the inverse of `SextetChar`. */
  function CharSextet(c: char): (v: Sextet)
    requires IsAlphabetChar(c)
    ensures SextetChar(v) == c
  {
    if 'A' <= c <= 'Z' then c as int - 'A' as int
    else if 'a' <= c <= 'z' then c as int - 'a' as int + 26
    else if '0' <= c <= '9' then c as int - '0' as int + 52
    else if c == '+' then 62
    else 63
  }

  lemma SextetRoundTrip(v: Sextet)
    ensures CharSextet(SextetChar(v)) == v
  {
  }

  /** The four characters that encode three octets. */
  function EncodeTriple(b0: Byte, b1: Byte, b2: Byte): string
  {
    [SextetChar(b0 / 4), SextetChar((b0 % 4) * 16 + b1 / 16),
     SextetChar((b1 % 16) * 4 + b2 / 64), SextetChar(b2 % 64)]
  }

  /** `base64.b64encode`: groups of three octets, the last one padded with `=`. */
  function Encode(data: seq<Byte>): string
    decreases |data|
  {
    if |data| == 0 then ""
    else if |data| == 1 then
      [SextetChar(data[0] / 4), SextetChar((data[0] % 4) * 16), Pad, Pad]
    else if |data| == 2 then
      [SextetChar(data[0] / 4), SextetChar((data[0] % 4) * 16 + data[1] / 16),
       SextetChar((data[1] % 16) * 4), Pad]
    else
      EncodeTriple(data[0], data[1], data[2]) + Encode(data[3..])
  }

  /** The three octets carried by four sextets. */
  function DecodeQuad(c0: Sextet, c1: Sextet, c2: Sextet, c3: Sextet): seq<Byte>
  {
    [c0 * 4 + c1 / 16, (c1 % 16) * 16 + c2 / 4, (c2 % 4) * 64 + c3]
  }

  /** Strict decoding, one group of four characters at a time: None where the decoder
      raises `binascii.Error`. */
  function Decode(s: string): Option<seq<Byte>>
    decreases |s|
  {
    if |s| == 0 then Some([])
    else if |s| < 4 then None
    else if IsAlphabetChar(s[0]) && IsAlphabetChar(s[1]) && IsAlphabetChar(s[2]) && IsAlphabetChar(s[3]) then
      match Decode(s[4..])
      case None => None
      case Some(rest) =>
        Some(DecodeQuad(CharSextet(s[0]), CharSextet(s[1]), CharSextet(s[2]), CharSextet(s[3])) + rest)
    else if |s| == 4 && IsAlphabetChar(s[0]) && IsAlphabetChar(s[1]) && s[2] == Pad && s[3] == Pad then
      Some([CharSextet(s[0]) * 4 + CharSextet(s[1]) / 16])
    else if |s| == 4 && IsAlphabetChar(s[0]) && IsAlphabetChar(s[1]) && IsAlphabetChar(s[2]) && s[3] == Pad then
      Some(DecodeQuad(CharSextet(s[0]), CharSextet(s[1]), CharSextet(s[2]), 0)[..2])
    else None
  }

  /** The shape of an acceptable string, stated without decoding: a multiple of four long,
      alphabet characters everywhere except for one or two `=` at the very end. */
  predicate WellFormed(s: string)
  {
    && |s| % 4 == 0
    && forall i :: 0 <= i < |s| ==>
         IsAlphabetChar(s[i]) || (s[i] == Pad && |s| - 2 <= i && s[|s| - 1] == Pad)
  }

  lemma WellFormedTail(s: string)
    requires |s| >= 4
    requires forall i :: 0 <= i < 4 ==> IsAlphabetChar(s[i])
    ensures WellFormed(s) <==> WellFormed(s[4..])
  {
    var t := s[4..];
    if WellFormed(s) {
      forall i | 0 <= i < |t|
        ensures IsAlphabetChar(t[i]) || (t[i] == Pad && |t| - 2 <= i && t[|t| - 1] == Pad)
      {
        assert t[i] == s[i + 4];
      }
    }
    if WellFormed(t) {
      forall i | 0 <= i < |s|
        ensures IsAlphabetChar(s[i]) || (s[i] == Pad && |s| - 2 <= i && s[|s| - 1] == Pad)
      {
        if i >= 4 {
          assert s[i] == t[i - 4];
        }
      }
    }
  }

  /** The decoder accepts exactly the well-formed strings. */
  lemma {:induction false} DecodeAcceptsExactlyWellFormed(s: string)
    ensures Decode(s).Some? <==> WellFormed(s)
    decreases |s|
  {
    if |s| == 0 {
    } else if |s| < 4 {
      assert !WellFormed(s);
    } else if IsAlphabetChar(s[0]) && IsAlphabetChar(s[1]) && IsAlphabetChar(s[2]) && IsAlphabetChar(s[3]) {
      DecodeAcceptsExactlyWellFormed(s[4..]);
      WellFormedTail(s);
    } else if WellFormed(s) {
      // A character among the first four is `=`, so the string is a single final group.
      var j :| 0 <= j < 4 && !IsAlphabetChar(s[j]);
      assert s[j] == Pad && |s| - 2 <= j;
      assert |s| == 4;
      assert IsAlphabetChar(s[0]) && IsAlphabetChar(s[1]);
    }
  }

  /** Excess padding: `=` after a complete group of four (as in `QUJD=` or `QUJD==`) is
      rejected, whatever came before it. */
  lemma ExcessPaddingRejected(s: string)
    requires WellFormed(s)
    ensures Decode(s + [Pad]) == None
    ensures Decode(s + [Pad, Pad]) == None
  {
    var one, two := s + [Pad], s + [Pad, Pad];
    assert |s| % 4 == 0;
    assert |one| % 4 == 1 && |two| % 4 == 2;
    assert !WellFormed(one) && !WellFormed(two);
    DecodeAcceptsExactlyWellFormed(one);
    DecodeAcceptsExactlyWellFormed(two);
  }

  /** `QUJD` is `ABC`; with one or two `=` after it the decoder raises. */
  lemma ExcessPaddingExample()
    ensures Decode("QUJD") == Some([65, 66, 67])
    ensures Decode("QUJD=") == None && Decode("QUJD==") == None
  {
    assert "QUJD=" == "QUJD" + [Pad] && "QUJD==" == "QUJD" + [Pad, Pad];
    var q := "QUJD";
    assert CharSextet(q[0]) == 16 && CharSextet(q[1]) == 20 && CharSextet(q[2]) == 9 && CharSextet(q[3]) == 3;
    assert q[4..] == [] && Decode(q[4..]) == Some([]);
    assert IsAlphabetChar(q[0]) && IsAlphabetChar(q[1]) && IsAlphabetChar(q[2]) && IsAlphabetChar(q[3]);
    assert Decode(q) == Some(DecodeQuad(16, 20, 9, 3) + []);
    assert DecodeQuad(16, 20, 9, 3) + [] == [65, 66, 67];
    DecodeAcceptsExactlyWellFormed(q);
    ExcessPaddingRejected(q);
  }

  /** Strictness: one character outside the alphabet and `=`, anywhere, is rejected. */
  lemma RejectsForeignCharacter(s: string, i: int)
    requires 0 <= i < |s| && !IsAlphabetChar(s[i]) && s[i] != Pad
    ensures Decode(s) == None
  {
    DecodeAcceptsExactlyWellFormed(s);
  }

  lemma TripleRoundTrip(b0: Byte, b1: Byte, b2: Byte)
    ensures var e := EncodeTriple(b0, b1, b2);
      DecodeQuad(CharSextet(e[0]), CharSextet(e[1]), CharSextet(e[2]), CharSextet(e[3])) == [b0, b1, b2]
  {
    var c1: Sextet := (b0 % 4) * 16 + b1 / 16;
    var c2: Sextet := (b1 % 16) * 4 + b2 / 64;
    SextetRoundTrip(b0 / 4);
    SextetRoundTrip(c1);
    SextetRoundTrip(c2);
    SextetRoundTrip(b2 % 64);
    assert c1 / 16 == b0 % 4 && c1 % 16 == b1 / 16;
    assert c2 / 4 == b1 % 16 && c2 % 4 == b2 / 64;
  }

  lemma SingleRoundTrip(b0: Byte)
    ensures Decode(Encode([b0])) == Some([b0])
  {
    var c1: Sextet := (b0 % 4) * 16;
    SextetRoundTrip(b0 / 4);
    SextetRoundTrip(c1);
    assert c1 / 16 == b0 % 4;
  }

  lemma PairRoundTrip(b0: Byte, b1: Byte)
    ensures Decode(Encode([b0, b1])) == Some([b0, b1])
  {
    var c1: Sextet := (b0 % 4) * 16 + b1 / 16;
    var c2: Sextet := (b1 % 16) * 4;
    SextetRoundTrip(b0 / 4);
    SextetRoundTrip(c1);
    SextetRoundTrip(c2);
    assert c1 / 16 == b0 % 4 && c1 % 16 == b1 / 16 && c2 / 4 == b1 % 16;
    var e := Encode([b0, b1]);
    assert e[0] == SextetChar(b0 / 4) && e[1] == SextetChar(c1) && e[2] == SextetChar(c2) && e[3] == Pad;
    assert !IsAlphabetChar(e[3]) && e[2] != Pad;
    var q := DecodeQuad(CharSextet(e[0]), CharSextet(e[1]), CharSextet(e[2]), 0);
    assert Decode(e) == Some(q[..2]);
    assert q[0] == b0 && q[1] == b1;
    assert q[..2] == [b0, b1];
  }

  /** Decoding a group of four alphabet characters followed by more text. */
  lemma DecodeFullGroup(head: string, tail: string)
    requires |head| == 4 && forall i :: 0 <= i < 4 ==> IsAlphabetChar(head[i])
    ensures Decode(head + tail) ==
      match Decode(tail)
      case None => None
      case Some(rest) =>
        Some(DecodeQuad(CharSextet(head[0]), CharSextet(head[1]), CharSextet(head[2]), CharSextet(head[3])) + rest)
  {
    var s := head + tail;
    assert s[4..] == tail;
    assert s[0] == head[0] && s[1] == head[1] && s[2] == head[2] && s[3] == head[3];
  }

  /** Round trip: decoding the standard encoding of any octet string gives it back. */
  lemma {:induction false} DecodeEncode(data: seq<Byte>)
    ensures Decode(Encode(data)) == Some(data)
    decreases |data|
  {
    if |data| == 0 {
    } else if |data| == 1 {
      SingleRoundTrip(data[0]);
      assert [data[0]] == data;
    } else if |data| == 2 {
      PairRoundTrip(data[0], data[1]);
      assert [data[0], data[1]] == data;
    } else {
      var head := EncodeTriple(data[0], data[1], data[2]);
      assert Encode(data) == head + Encode(data[3..]);
      DecodeEncode(data[3..]);
      DecodeFullGroup(head, Encode(data[3..]));
      TripleRoundTrip(data[0], data[1], data[2]);
      assert data == [data[0], data[1], data[2]] + data[3..];
    }
  }

  /** The encoding of any octet string is well formed, four characters per started triple. */
  lemma EncodeWellFormed(data: seq<Byte>)
    ensures WellFormed(Encode(data))
    ensures |Encode(data)| == 4 * ((|data| + 2) / 3)
  {
    DecodeEncode(data);
    DecodeAcceptsExactlyWellFormed(Encode(data));
    EncodeLength(data);
  }

  lemma {:induction false} EncodeLength(data: seq<Byte>)
    ensures |Encode(data)| == 4 * ((|data| + 2) / 3)
    decreases |data|
  {
    if |data| > 2 {
      EncodeLength(data[3..]);
    }
  }
}
