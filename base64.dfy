/** The standard base 64 encoding of section 4 of RFC 4648, with `=` padding,
    as Go's `base64.StdEncoding` writes it. */
module Base64 {
  import opened Common

  /** A 6-bit value. */
  newtype sextet = v: int | 0 <= v < 64

  /** Table 1 of RFC 4648: the letter for a 6-bit value. */
  function Letter(v: sextet): (c: char)
  {
    if v < 26 then ('A' as int + v as int) as char
    else if v < 52 then ('a' as int + (v as int - 26)) as char
    else if v < 62 then ('0' as int + (v as int - 52)) as char
    else if v == 62 then '+'
    else '/'
  }

  /** The 6-bit value of an alphabet letter; `None` for any other character,
      the padding character `=` included. */
  function Value(c: char): (v: Option<sextet>)
  {
    if 'A' <= c <= 'Z' then Some((c as int - 'A' as int) as sextet)
    else if 'a' <= c <= 'z' then Some((c as int - 'a' as int + 26) as sextet)
    else if '0' <= c <= '9' then Some((c as int - '0' as int + 52) as sextet)
    else if c == '+' then Some(62)
    else if c == '/' then Some(63)
    else None
  }

  lemma ValueOfLetter(v: sextet)
    ensures Value(Letter(v)) == Some(v)
    ensures Letter(v) != '='
  {
  }

  // How three bytes split into four 6-bit values, high bits first.
  function Split0(x: byte): sextet { (x as int / 4) as sextet }
  function Split1(x: byte, y: byte): sextet { ((x as int % 4) * 16 + y as int / 16) as sextet }
  function Split2(y: byte, z: byte): sextet { ((y as int % 16) * 4 + z as int / 64) as sextet }
  function Split3(z: byte): sextet { (z as int % 64) as sextet }

  // How four 6-bit values join into three bytes again.
  function Join0(i0: sextet, i1: sextet): byte { (i0 as int * 4 + i1 as int / 16) as byte }
  function Join1(i1: sextet, i2: sextet): byte { ((i1 as int % 16) * 16 + i2 as int / 4) as byte }
  function Join2(i2: sextet, i3: sextet): byte { ((i2 as int % 4) * 64 + i3 as int) as byte }

  /** Joining the split of three bytes gives them back. */
  lemma SplitJoin(x: byte, y: byte, z: byte)
    ensures Join0(Split0(x), Split1(x, y)) == x
    ensures Join1(Split1(x, y), Split2(y, z)) == y
    ensures Join2(Split2(y, z), Split3(z)) == z
  {
  }

  function Quad(i0: sextet, i1: sextet, i2: sextet, i3: sextet): (s: string)
  {
    [Letter(i0), Letter(i1), Letter(i2), Letter(i3)]
  }

  /** Encodes whole 3-byte groups into four letters; a final group of one or
      two bytes gets two or one `=`. */
  function Encode(b: seq<byte>): (s: string)
    ensures |s| == 4 * ((|b| + 2) / 3)
    decreases |b|
  {
    if |b| == 0 then []
    else if |b| == 1 then
      [Letter(Split0(b[0])), Letter(Split1(b[0], 0)), '=', '=']
    else if |b| == 2 then
      [Letter(Split0(b[0])), Letter(Split1(b[0], b[1])), Letter(Split2(b[1], 0)), '=']
    else
      Quad(Split0(b[0]), Split1(b[0], b[1]), Split2(b[1], b[2]), Split3(b[2])) + Encode(b[3..])
  }

  /** Decodes groups of four characters; `None` when the length is not a
      multiple of four or a character is outside the alphabet. */
  function Decode(s: string): (r: Option<seq<byte>>)
    decreases |s|
  {
    if |s| == 0 then Some([])
    else if |s| < 4 then None
    else
      match (Value(s[0]), Value(s[1]))
      case (Some(i0), Some(i1)) =>
        if |s| == 4 && s[2] == '=' && s[3] == '=' then Some([Join0(i0, i1)])
        else (
          match Value(s[2])
          case None => None
          case Some(i2) =>
            if |s| == 4 && s[3] == '=' then Some([Join0(i0, i1), Join1(i1, i2)])
            else (
              match (Value(s[3]), Decode(s[4..]))
              case (Some(i3), Some(rest)) => Some([Join0(i0, i1), Join1(i1, i2), Join2(i2, i3)] + rest)
              case _ => None))
      case _ => None
  }

  /** A group of four alphabet letters decodes to three bytes placed in front
      of whatever the rest decodes to. */
  lemma DecodeQuad(i0: sextet, i1: sextet, i2: sextet, i3: sextet, t: string)
    requires Decode(t).Some?
    ensures Decode(Quad(i0, i1, i2, i3) + t) ==
      Some([Join0(i0, i1), Join1(i1, i2), Join2(i2, i3)] + Decode(t).value)
  {
    ValueOfLetter(i0);
    ValueOfLetter(i1);
    ValueOfLetter(i2);
    ValueOfLetter(i3);
    var s := Quad(i0, i1, i2, i3) + t;
    assert s[4..] == t;
    assert s[0] == Letter(i0) && s[1] == Letter(i1) && s[2] == Letter(i2) && s[3] == Letter(i3);
  }

  lemma EncodeGroup(b: seq<byte>)
    requires |b| >= 3
    ensures Encode(b) == Quad(Split0(b[0]), Split1(b[0], b[1]), Split2(b[1], b[2]), Split3(b[2])) + Encode(b[3..])
  {
  }

  /** A final group with two padding characters decodes to one byte. */
  lemma DecodePadded2(i0: sextet, i1: sextet)
    ensures Decode([Letter(i0), Letter(i1), '=', '=']) == Some([Join0(i0, i1)])
  {
    ValueOfLetter(i0);
    ValueOfLetter(i1);
  }

  /** A final group with one padding character decodes to two bytes. */
  lemma DecodePadded1(i0: sextet, i1: sextet, i2: sextet)
    ensures Decode([Letter(i0), Letter(i1), Letter(i2), '=']) == Some([Join0(i0, i1), Join1(i1, i2)])
  {
    ValueOfLetter(i0);
    ValueOfLetter(i1);
    ValueOfLetter(i2);
  }

  /** Decoding the encoding of a final group of one byte. */
  lemma DecodeEncodeOne(b: seq<byte>)
    requires |b| == 1
    ensures Decode(Encode(b)) == Some(b)
  {
    assert [b[0]] == b;
    assert Encode(b) == [Letter(Split0(b[0])), Letter(Split1(b[0], 0)), '=', '='];
    SplitJoin(b[0], 0, 0);
    DecodePadded2(Split0(b[0]), Split1(b[0], 0));
  }

  /** Decoding the encoding of a final group of two bytes. */
  lemma DecodeEncodeTwo(b: seq<byte>)
    requires |b| == 2
    ensures Decode(Encode(b)) == Some(b)
  {
    assert [b[0], b[1]] == b;
    assert Encode(b) == [Letter(Split0(b[0])), Letter(Split1(b[0], b[1])), Letter(Split2(b[1], 0)), '='];
    SplitJoin(b[0], b[1], 0);
    DecodePadded1(Split0(b[0]), Split1(b[0], b[1]), Split2(b[1], 0));
  }

  /** Decoding an encoding gives back the bytes. */
  lemma {:induction false} DecodeEncode(b: seq<byte>)
    ensures Decode(Encode(b)) == Some(b)
    decreases |b|
  {
    if |b| == 0 {
    } else if |b| == 1 {
      DecodeEncodeOne(b);
    } else if |b| == 2 {
      DecodeEncodeTwo(b);
    } else {
      assert [b[0], b[1], b[2]] + b[3..] == b;
      var t := Encode(b[3..]);
      EncodeGroup(b);
      SplitJoin(b[0], b[1], b[2]);
      DecodeEncode(b[3..]);
      DecodeQuad(Split0(b[0]), Split1(b[0], b[1]), Split2(b[1], b[2]), Split3(b[2]), t);
    }
  }

  /** A group of four letters holds no padding character. */
  lemma QuadUnpadded(i0: sextet, i1: sextet, i2: sextet, i3: sextet)
    ensures forall k :: 0 <= k < 4 ==> Quad(i0, i1, i2, i3)[k] != '='
  {
    ValueOfLetter(i0);
    ValueOfLetter(i1);
    ValueOfLetter(i2);
    ValueOfLetter(i3);
  }

  /** The last `n` positions of `s` hold the padding character, and no other
      position does. */
  predicate PaddedLast(s: string, n: nat)
  {
    forall i :: 0 <= i < |s| ==> (s[i] == '=' <==> i >= |s| - n)
  }

  /** Unpadded letters in front keep the padding at the end. */
  lemma PaddedAfter(q: string, t: string, n: nat)
    requires forall k :: 0 <= k < |q| ==> q[k] != '='
    requires n <= |t| && PaddedLast(t, n)
    ensures PaddedLast(q + t, n)
  {
    forall i | 0 <= i < |q + t|
      ensures (q + t)[i] == '=' <==> i >= |q + t| - n
    {
      if i >= |q| {
        assert (q + t)[i] == t[i - |q|];
      }
    }
  }

  lemma PadCountStep(n: nat)
    requires n >= 3
    ensures (3 - (n - 3) % 3) % 3 == (3 - n % 3) % 3
    ensures (3 - n % 3) % 3 <= 4 * ((n - 3 + 2) / 3)
  {
  }

  /** A final group of one byte ends in two `=`. */
  lemma EncodePaddingOne(b: seq<byte>)
    requires |b| == 1
    ensures PaddedLast(Encode(b), 2)
  {
    var c0, c1 := Letter(Split0(b[0])), Letter(Split1(b[0], 0));
    ValueOfLetter(Split0(b[0]));
    ValueOfLetter(Split1(b[0], 0));
    assert Encode(b) == [c0, c1, '=', '='];
  }

  /** A final group of two bytes ends in one `=`. */
  lemma EncodePaddingTwo(b: seq<byte>)
    requires |b| == 2
    ensures PaddedLast(Encode(b), 1)
  {
    var c0, c1, c2 := Letter(Split0(b[0])), Letter(Split1(b[0], b[1])), Letter(Split2(b[1], 0));
    ValueOfLetter(Split0(b[0]));
    ValueOfLetter(Split1(b[0], b[1]));
    ValueOfLetter(Split2(b[1], 0));
    assert Encode(b) == [c0, c1, c2, '='];
  }

  /** The encoding of `n` bytes uses the padding character exactly in its
      last `(3 - n % 3) % 3` positions. */
  lemma {:induction false} EncodePadding(b: seq<byte>)
    ensures PaddedLast(Encode(b), (3 - |b| % 3) % 3)
    decreases |b|
  {
    if |b| == 1 {
      EncodePaddingOne(b);
    } else if |b| == 2 {
      EncodePaddingTwo(b);
    } else if |b| >= 3 {
      var q := Quad(Split0(b[0]), Split1(b[0], b[1]), Split2(b[1], b[2]), Split3(b[2]));
      var t := Encode(b[3..]);
      var n := (3 - |b| % 3) % 3;
      QuadUnpadded(Split0(b[0]), Split1(b[0], b[1]), Split2(b[1], b[2]), Split3(b[2]));
      EncodePadding(b[3..]);
      EncodeGroup(b);
      PadCountStep(|b|);
      assert PaddedLast(t, n) && n <= |t|;
      PaddedAfter(q, t, n);
    }
  }

  /** 32 bytes, the size of a proof-of-work challenge, encode to 44
      characters of which only the last is padding. */
  lemma Encode32(b: seq<byte>)
    requires |b| == 32
    ensures |Encode(b)| == 44
    ensures Encode(b)[43] == '='
    ensures forall i :: 0 <= i < 43 ==> Encode(b)[i] != '='
  {
    EncodePadding(b);
    assert (3 - |b| % 3) % 3 == 1;
  }
}
