/** Base64 in the standard alphabet with `=` padding (section 4 of RFC 4648),
    as `base64::engine::general_purpose::STANDARD` applies it to the PCM
    payload of an audio-frame envelope (src/nats/client.rs:39). The decoder
    is the strict one of that engine: the length must be a multiple of four,
    padding may only close the last quantum, and the pad bits of a padded
    quantum must be zero (canonical encoding, section 3.5 of RFC 4648). */
module Base64 {
  import opened Wrappers
  import opened Audio

  /** A 6-bit value: the index of an alphabet character. */
  type Sextet = x: int | 0 <= x < 64

  /** The character encoding the 6-bit value `v` (Table 1 of RFC 4648:
      `A`-`Z`, `a`-`z`, `0`-`9`, `+`, `/`). */
  function CharOf(v: Sextet): (c: char)
    ensures c != '='
  {
    if v < 26 then ('A' as int + v) as char
    else if v < 52 then ('a' as int + (v - 26)) as char
    else if v < 62 then ('0' as int + (v - 52)) as char
    else if v == 62 then '+'
    else '/'
  }

  /** The value of an alphabet character; `None` for any other character,
      the pad character included. */
  function ValueOf(c: char): (r: Option<Sextet>)
    ensures c == '=' ==> r == None
  {
    if 'A' <= c <= 'Z' then Some(c as int - 'A' as int)
    else if 'a' <= c <= 'z' then Some(c as int - 'a' as int + 26)
    else if '0' <= c <= '9' then Some(c as int - '0' as int + 52)
    else if c == '+' then Some(62)
    else if c == '/' then Some(63)
    else None
  }

  lemma ValueOfCharOf(v: Sextet)
    ensures ValueOf(CharOf(v)) == Some(v)
  {
  }

  lemma CharOfValueOf(c: char)
    requires ValueOf(c).Some?
    ensures CharOf(ValueOf(c).value) == c
  {
  }

  /** Three bytes as four characters (section 4: 24-bit group from the left). */
  function EncodeTriple(a: U8, b: U8, c: U8): string
  {
    [CharOf(a / 4), CharOf((a % 4) * 16 + b / 16), CharOf((b % 16) * 4 + c / 64), CharOf(c % 64)]
  }

  /** A final one-byte quantum: two characters and `==`. */
  function EncodeSingle(a: U8): string
  {
    [CharOf(a / 4), CharOf((a % 4) * 16), '=', '=']
  }

  /** A final two-byte quantum: three characters and `=`. */
  function EncodePair(a: U8, b: U8): string
  {
    [CharOf(a / 4), CharOf((a % 4) * 16 + b / 16), CharOf((b % 16) * 4), '=']
  }

  /** `STANDARD.encode(bytes)`. */
  function Encode(bytes: seq<U8>): (s: string)
    decreases |bytes|
  {
    if |bytes| == 0 then []
    else if |bytes| == 1 then EncodeSingle(bytes[0])
    else if |bytes| == 2 then EncodePair(bytes[0], bytes[1])
    else EncodeTriple(bytes[0], bytes[1], bytes[2]) + Encode(bytes[3..])
  }

  /** Four alphabet characters as three bytes. */
  function DecodeFull(w: Sextet, x: Sextet, y: Sextet, z: Sextet): seq<U8>
  {
    [w * 4 + x / 16, (x % 16) * 16 + y / 4, (y % 4) * 64 + z]
  }

  /** One quantum of four characters; `last` says whether padding is allowed. */
  function DecodeQuantum(q: string, last: bool): Option<seq<U8>>
    requires |q| == 4
  {
    var w, x, y, z := ValueOf(q[0]), ValueOf(q[1]), ValueOf(q[2]), ValueOf(q[3]);
    if w.None? || x.None? then None
    else if y.Some? && z.Some? then Some(DecodeFull(w.value, x.value, y.value, z.value))
    else if !last then None
    else if q[2] == '=' && q[3] == '=' then
      (if x.value % 16 == 0 then Some([w.value * 4 + x.value / 16]) else None)
    else if y.Some? && q[3] == '=' then
      (if y.value % 4 == 0
       then Some([w.value * 4 + x.value / 16, (x.value % 16) * 16 + y.value / 4])
       else None)
    else None
  }

  /** `STANDARD.decode(s)`: `None` when `s` is not a canonical encoding. */
  function Decode(s: string): Option<seq<U8>>
    decreases |s|
  {
    if |s| == 0 then Some([])
    else if |s| < 4 then None
    else
      match DecodeQuantum(s[..4], |s| == 4)
      case None => None
      case Some(head) =>
        match Decode(s[4..])
        case None => None
        case Some(tail) => Some(head + tail)
  }

  // ---------------------------------------------------------------------
  // Properties
  // ---------------------------------------------------------------------

  /** An empty payload (the final marker of a stream) encodes to "". */
  lemma EncodeEmpty()
    ensures Encode([]) == ""
  {
  }

  /** Four output characters for every started group of three input bytes. */
  lemma {:induction false} EncodeLength(bytes: seq<U8>)
    ensures |Encode(bytes)| == 4 * ((|bytes| + 2) / 3)
    decreases |bytes|
  {
    if |bytes| > 2 {
      var n := |bytes|;
      EncodeLength(bytes[3..]);
      assert |bytes[3..]| == n - 3;
      assert (n + 2) / 3 == (n - 3 + 2) / 3 + 1;
      assert |Encode(bytes)| == 4 + |Encode(bytes[3..])|;
    }
  }

  /** The encoding only uses alphabet characters, followed by at most two
      pad characters at the very end. */
  lemma {:induction false} EncodeAlphabet(bytes: seq<U8>)
    ensures forall i :: 0 <= i < |Encode(bytes)| ==>
      ValueOf(Encode(bytes)[i]).Some? || (Encode(bytes)[i] == '=' && i >= |Encode(bytes)| - 2)
    decreases |bytes|
  {
    if |bytes| > 2 {
      EncodeAlphabet(bytes[3..]);
      EncodeLength(bytes[3..]);
      var s := Encode(bytes);
      assert s == EncodeTriple(bytes[0], bytes[1], bytes[2]) + Encode(bytes[3..]);
      forall i | 0 <= i < |s|
        ensures ValueOf(s[i]).Some? || (s[i] == '=' && i >= |s| - 2)
      {
        if i < 4 {
          assert s[i] == EncodeTriple(bytes[0], bytes[1], bytes[2])[i];
        } else {
          assert s[i] == Encode(bytes[3..])[i - 4];
        }
      }
    }
  }

  /** Division by 16 undoes `q * 16 + r` for a remainder `r < 16`. */
  lemma Split16(q: int, r: int)
    requires 0 <= r < 16
    ensures (q * 16 + r) / 16 == q && (q * 16 + r) % 16 == r
  {
  }

  /** Division by 4 undoes `q * 4 + r` for a remainder `r < 4`. */
  lemma Split4(q: int, r: int)
    requires 0 <= r < 4
    ensures (q * 4 + r) / 4 == q && (q * 4 + r) % 4 == r
  {
  }

  /** Four alphabet characters decode as a full quantum. */
  lemma QuantumOfChars(w: Sextet, x: Sextet, y: Sextet, z: Sextet, last: bool)
    ensures DecodeQuantum([CharOf(w), CharOf(x), CharOf(y), CharOf(z)], last)
         == Some(DecodeFull(w, x, y, z))
  {
    ValueOfCharOf(w);
    ValueOfCharOf(x);
    ValueOfCharOf(y);
    ValueOfCharOf(z);
  }

  lemma TripleRoundTrip(a: U8, b: U8, c: U8)
    ensures DecodeQuantum(EncodeTriple(a, b, c), false) == Some([a, b, c])
    ensures DecodeQuantum(EncodeTriple(a, b, c), true) == Some([a, b, c])
  {
    var w, x, y, z := a / 4, (a % 4) * 16 + b / 16, (b % 16) * 4 + c / 64, c % 64;
    Split16(a % 4, b / 16);
    Split4(b % 16, c / 64);
    assert w * 4 + x / 16 == a;
    assert (x % 16) * 16 + y / 4 == b;
    assert (y % 4) * 64 + z == c;
    QuantumOfChars(w, x, y, z, false);
    QuantumOfChars(w, x, y, z, true);
  }

  lemma SingleRoundTrip(a: U8)
    ensures DecodeQuantum(EncodeSingle(a), true) == Some([a])
  {
    var w, x := a / 4, (a % 4) * 16;
    ValueOfCharOf(w);
    ValueOfCharOf(x);
    Split16(a % 4, 0);
    assert x % 16 == 0 && w * 4 + x / 16 == a;
  }

  lemma PairRoundTrip(a: U8, b: U8)
    ensures DecodeQuantum(EncodePair(a, b), true) == Some([a, b])
  {
    var w, x, y := a / 4, (a % 4) * 16 + b / 16, (b % 16) * 4;
    ValueOfCharOf(w);
    ValueOfCharOf(x);
    ValueOfCharOf(y);
    Split16(a % 4, b / 16);
    Split4(b % 16, 0);
    assert y % 4 == 0 && w * 4 + x / 16 == a && (x % 16) * 16 + y / 4 == b;
  }

  /** A lone quantum is decoded with padding allowed. */
  lemma DecodeLast(q: string)
    requires |q| == 4
    ensures Decode(q) == DecodeQuantum(q, true)
  {
    assert q[..4] == q && q[4..] == [];
    if DecodeQuantum(q, true).Some? {
      assert DecodeQuantum(q, true).value + [] == DecodeQuantum(q, true).value;
    }
  }

  /** A quantum followed by more input is decoded without padding. */
  lemma DecodeCons(q: string, rest: string)
    requires |q| == 4 && |rest| > 0
    ensures Decode(q + rest) ==
      match (DecodeQuantum(q, false), Decode(rest))
      case (Some(h), Some(t)) => Some(h + t)
      case _ => None
  {
    var s := q + rest;
    assert s[..4] == q && s[4..] == rest;
  }

  /** Decoding an encoding gives the bytes back: the receiving side of an
      audio-frame envelope recovers the exact PCM bytes. */
  lemma {:induction false} DecodeEncode(bytes: seq<U8>)
    ensures Decode(Encode(bytes)) == Some(bytes)
    decreases |bytes|
  {
    if |bytes| == 1 {
      SingleRoundTrip(bytes[0]);
      DecodeLast(Encode(bytes));
      assert [bytes[0]] == bytes;
    } else if |bytes| == 2 {
      PairRoundTrip(bytes[0], bytes[1]);
      DecodeLast(Encode(bytes));
      assert [bytes[0], bytes[1]] == bytes;
    } else if |bytes| > 2 {
      DecodeEncode(bytes[3..]);
      DecodeEncodeStep(bytes);
    }
  }

  lemma HeadThree(bytes: seq<U8>)
    requires |bytes| > 2
    ensures [bytes[0], bytes[1], bytes[2]] + bytes[3..] == bytes
  {
  }

  /** The inductive step of `DecodeEncode`: a full group in front of a
      tail whose encoding decodes. */
  lemma DecodeEncodeStep(bytes: seq<U8>)
    requires |bytes| > 2 && Decode(Encode(bytes[3..])) == Some(bytes[3..])
    ensures Decode(Encode(bytes)) == Some(bytes)
  {
    if |bytes| == 3 {
      DecodeEncodeThree(bytes);
    } else {
      DecodeEncodeMore(bytes);
    }
  }

  /** Exactly three bytes are one unpadded quantum. */
  lemma DecodeEncodeThree(bytes: seq<U8>)
    requires |bytes| == 3
    ensures Decode(Encode(bytes)) == Some(bytes)
  {
    var t := EncodeTriple(bytes[0], bytes[1], bytes[2]);
    assert bytes[3..] == [];
    assert Encode(bytes) == t + [];
    assert t + [] == t;
    TripleRoundTrip(bytes[0], bytes[1], bytes[2]);
    DecodeLast(t);
    assert [bytes[0], bytes[1], bytes[2]] == bytes;
  }

  /** A full quantum followed by a non-empty tail whose encoding decodes. */
  lemma DecodeEncodeMore(bytes: seq<U8>)
    requires |bytes| > 3 && Decode(Encode(bytes[3..])) == Some(bytes[3..])
    ensures Decode(Encode(bytes)) == Some(bytes)
  {
    var t := EncodeTriple(bytes[0], bytes[1], bytes[2]);
    var rest := Encode(bytes[3..]);
    assert Encode(bytes) == t + rest;
    TripleRoundTrip(bytes[0], bytes[1], bytes[2]);
    EncodeLength(bytes[3..]);
    DecodeCons(t, rest);
    HeadThree(bytes);
  }

  /** Division by 64 undoes `q * 64 + r` for a remainder `r < 64`. */
  lemma Split64(q: int, r: int)
    requires 0 <= r < 64
    ensures (q * 64 + r) / 64 == q && (q * 64 + r) % 64 == r
  {
  }

  /** The sextets of three decoded bytes are the sextets they came from. */
  lemma FullSextets(w: Sextet, x: Sextet, y: Sextet, z: Sextet)
    ensures var b := DecodeFull(w, x, y, z);
      && b[0] / 4 == w
      && (b[0] % 4) * 16 + b[1] / 16 == x
      && (b[1] % 16) * 4 + b[2] / 64 == y
      && b[2] % 64 == z
  {
    Split4(w, x / 16);
    Split16(x % 16, y / 4);
    Split64(y % 4, z);
    assert (x / 16) * 16 + x % 16 == x;
    assert (y / 4) * 4 + y % 4 == y;
  }

  /** Three decoded bytes re-encode to their four characters. */
  lemma FullCanonical(w: Sextet, x: Sextet, y: Sextet, z: Sextet)
    ensures var b := DecodeFull(w, x, y, z);
      EncodeTriple(b[0], b[1], b[2]) == [CharOf(w), CharOf(x), CharOf(y), CharOf(z)]
  {
    FullSextets(w, x, y, z);
  }

  /** A decoded `xy==` quantum re-encodes to itself. */
  lemma SingleCanonical(w: Sextet, x: Sextet)
    requires x % 16 == 0
    ensures EncodeSingle(w * 4 + x / 16) == [CharOf(w), CharOf(x), '=', '=']
  {
    Split4(w, x / 16);
    assert (x / 16) * 16 == x;
  }

  /** A decoded `xyz=` quantum re-encodes to itself. */
  lemma PairCanonical(w: Sextet, x: Sextet, y: Sextet)
    requires y % 4 == 0
    ensures EncodePair(w * 4 + x / 16, (x % 16) * 16 + y / 4) == [CharOf(w), CharOf(x), CharOf(y), '=']
  {
    Split4(w, x / 16);
    Split16(x % 16, y / 4);
    assert (x / 16) * 16 + x % 16 == x;
    assert (y / 4) * 4 == y;
  }

  /** A decoded quantum re-encodes to the same four characters: the
      decoder accepts no non-canonical spelling. */
  lemma QuantumCanonical(q: string, last: bool)
    requires |q| == 4 && DecodeQuantum(q, last).Some?
    ensures var b := DecodeQuantum(q, last).value;
      1 <= |b| <= 3 && (|b| < 3 ==> last) &&
      Encode(b) == q
  {
    var w, x, y, z := ValueOf(q[0]), ValueOf(q[1]), ValueOf(q[2]), ValueOf(q[3]);
    CharOfValueOf(q[0]);
    CharOfValueOf(q[1]);
    var b := DecodeQuantum(q, last).value;
    if y.Some? && z.Some? {
      CharOfValueOf(q[2]);
      CharOfValueOf(q[3]);
      FullCanonical(w.value, x.value, y.value, z.value);
      assert b[3..] == [];
      assert Encode(b) == EncodeTriple(b[0], b[1], b[2]) + Encode([]);
      assert q == [q[0], q[1], q[2], q[3]];
    } else if q[2] == '=' && q[3] == '=' {
      SingleCanonical(w.value, x.value);
      assert Encode(b) == EncodeSingle(b[0]);
      assert q == [q[0], q[1], q[2], q[3]];
    } else {
      CharOfValueOf(q[2]);
      PairCanonical(w.value, x.value, y.value);
      assert Encode(b) == EncodePair(b[0], b[1]);
      assert q == [q[0], q[1], q[2], q[3]];
    }
  }

  /** Every string the decoder accepts is the encoding of what it decodes
      to, so the two are inverse bijections between byte strings and
      canonical base64 strings. */
  lemma {:induction false} EncodeDecode(s: string)
    requires Decode(s).Some?
    ensures Encode(Decode(s).value) == s
    decreases |s|
  {
    if |s| > 0 {
      var last := |s| == 4;
      var head := DecodeQuantum(s[..4], last).value;
      var tail := Decode(s[4..]).value;
      QuantumCanonical(s[..4], last);
      EncodeDecode(s[4..]);
      var b := head + tail;
      assert Decode(s).value == b;
      if last {
        assert tail == [] && b == head;
      } else {
        assert |head| == 3;
        assert b[3..] == tail;
        assert Encode(b) == EncodeTriple(b[0], b[1], b[2]) + Encode(tail);
        assert Encode(head) == EncodeTriple(head[0], head[1], head[2]) + Encode([]);
      }
      assert s == s[..4] + s[4..];
    }
  }

  /** Test vectors of section 10 of RFC 4648: "", "f", "fo", "foo". */
  lemma RfcVectorsShort()
    ensures Encode([]) == ""
    ensures Encode([102]) == "Zg=="
    ensures Encode([102, 111]) == "Zm8="
    ensures Encode([102, 111, 111]) == "Zm9v"
  {
    assert [102, 111, 111][3..] == [];
  }

  /** Test vectors of section 10 of RFC 4648: "foob", "fooba", "foobar". */
  lemma RfcVectorsLong()
    ensures Encode([102, 111, 111, 98]) == "Zm9vYg=="
    ensures Encode([102, 111, 111, 98, 97]) == "Zm9vYmE="
    ensures Encode([102, 111, 111, 98, 97, 114]) == "Zm9vYmFy"
  {
    RfcVectorsShort();
    var foo := EncodeTriple(102, 111, 111);
    assert foo == "Zm9v" by {
      assert [102, 111, 111][3..] == [];
    }
    assert [102, 111, 111, 98][3..] == [98];
    assert [102, 111, 111, 98, 97][3..] == [98, 97];
    assert [102, 111, 111, 98, 97, 114][3..] == [98, 97, 114];
    assert [98, 97, 114][3..] == [];
    assert Encode([98]) == "Yg==";
    assert Encode([98, 97]) == "YmE=";
    assert Encode([98, 97, 114]) == "YmFy";
  }

  /** Characters outside the alphabet, a wrong length, and misplaced or
      non-canonical padding are all rejected. */
  lemma RejectedInputs()
    ensures Decode("Zg=") == None
    ensures Decode("Zg==Zg==") == None
    ensures Decode("Zh==") == None
    ensures Decode("Zm9-") == None
    ensures Decode("Zg==") == Some([102])
  {
    DecodeLast("Zg==");
    DecodeLast("Zh==");
    DecodeLast("Zm9-");
    assert ValueOf('Z') == Some(25) && ValueOf('g') == Some(32);
    assert "Zg==Zg==" == "Zg==" + "Zg==";
    DecodeCons("Zg==", "Zg==");
  }
}
