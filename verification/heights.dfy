/**
 * The decode loop of a terrain's height file: the decompressed bytes are read
 * as `DataInputStream.readFloat` reads them, four bytes per sample, most
 * significant byte first. A sample is kept as the 32-bit word it is built
 * from; its IEEE 754 meaning is not modelled.
 */
module Heights {

  type Byte = x: int | 0 <= x < 0x100
  type Word = x: int | 0 <= x < 0x1_0000_0000

  /** The word of four bytes in big-endian order. */
  function BigEndian(b0: Byte, b1: Byte, b2: Byte, b3: Byte): Word {
    b0 * 0x100_0000 + b1 * 0x1_0000 + b2 * 0x100 + b3
  }

  /** The four bytes `DataOutputStream.writeInt` writes for a word, most significant first. */
  function WordBytes(w: Word): (bs: seq<Byte>)
    ensures |bs| == 4
  {
    [w / 0x100_0000, (w / 0x1_0000) % 0x100, (w / 0x100) % 0x100, w % 0x100]
  }

  lemma BigEndianOfWordBytes(w: Word)
    ensures var bs := WordBytes(w); BigEndian(bs[0], bs[1], bs[2], bs[3]) == w
  {
    var t1 := w / 0x100;
    var t2 := t1 / 0x100;
    assert t1 < 0x100_0000 && t2 < 0x1_0000;
    var b0, b1, b2, b3 := t2 / 0x100, t2 % 0x100, t1 % 0x100, w % 0x100;
    assert w == BigEndian(b0, b1, b2, b3);
    WordBytesOfBigEndian(b0, b1, b2, b3);
  }

  lemma WordBytesOfBigEndian(b0: Byte, b1: Byte, b2: Byte, b3: Byte)
    ensures WordBytes(BigEndian(b0, b1, b2, b3)) == [b0, b1, b2, b3]
  {
    var w := BigEndian(b0, b1, b2, b3);
    DivMod(w, b0, b1 * 0x1_0000 + b2 * 0x100 + b3, 0x100_0000);
    DivMod(w, b0 * 0x100 + b1, b2 * 0x100 + b3, 0x1_0000);
    DivMod(w / 0x1_0000, b0, b1, 0x100);
    DivMod(w, b0 * 0x1_0000 + b1 * 0x100 + b2, b3, 0x100);
    DivMod(w / 0x100, b0 * 0x100 + b1, b2, 0x100);
  }

  lemma DivMod(x: int, q: int, r: int, d: int)
    requires d > 0 && 0 <= r < d && x == q * d + r
    ensures x / d == q && x % d == r
  {
    var q', r' := x / d, x % d;
    assert (q - q') * d == r' - r;
    if q > q' {
      assert (q - q') * d >= d by { MulAtLeast(q - q', d); }
    } else if q < q' {
      assert (q' - q) * d >= d by { MulAtLeast(q' - q, d); }
    }
  }

  lemma MulAtLeast(k: int, d: int)
    requires k >= 1 && d > 0
    ensures k * d >= d
  {
  }

  /** The sample the `i`-th `readFloat` returns. */
  function WordAt(bytes: seq<Byte>, i: nat): Word
    requires 4 * i + 4 <= |bytes|
  {
    BigEndian(bytes[4 * i], bytes[4 * i + 1], bytes[4 * i + 2], bytes[4 * i + 3])
  }

  /**
   * The samples of a decompressed height stream. A trailing group of one to
   * three bytes makes `readFloat` throw EOFException, which `load` swallows,
   * so that group is dropped.
   */
  function Decode(bytes: seq<Byte>): (ws: seq<Word>)
    ensures |ws| == |bytes| / 4
    ensures forall i :: 0 <= i < |ws| ==> ws[i] == WordAt(bytes, i)
    decreases |bytes|
  {
    if |bytes| < 4 then []
    else
      var rest := Decode(bytes[4..]);
      assert forall i :: 0 <= i < |rest| ==> rest[i] == WordAt(bytes, i + 1);
      [BigEndian(bytes[0], bytes[1], bytes[2], bytes[3])] + rest
  }

  /**
   * The loop of `load` as written: read samples while bytes remain; a read
   * that finds fewer than four bytes ends the loop as the EOFException does.
   */
  method ReadHeights(bytes: seq<Byte>) returns (data: seq<Word>)
    ensures |data| == |bytes| / 4
    ensures forall i :: 0 <= i < |data| ==> data[i] == WordAt(bytes, i)
    ensures data == Decode(bytes)
  {
    data := [];
    var pos := 0;
    while pos < |bytes|
      invariant 0 <= pos <= |bytes|
      invariant pos % 4 == 0 || pos == |bytes|
      invariant data + Decode(bytes[pos..]) == Decode(bytes)
      decreases |bytes| - pos
    {
      if |bytes| - pos < 4 {
        // readFloat hits the end of the stream: the partial sample is lost.
        assert Decode(bytes[pos..]) == [];
        pos := |bytes|;
      } else {
        var w := BigEndian(bytes[pos], bytes[pos + 1], bytes[pos + 2], bytes[pos + 3]);
        assert bytes[pos..][4..] == bytes[pos + 4..];
        data := data + [w];
        pos := pos + 4;
      }
    }
    assert bytes[pos..] == [];
  }

  /** What a writer of height files emits for a sequence of samples. */
  function Encode(ws: seq<Word>): (bytes: seq<Byte>)
    ensures |bytes| == 4 * |ws|
  {
    if |ws| == 0 then [] else WordBytes(ws[0]) + Encode(ws[1..])
  }

  /** Decoding what was encoded gives the samples back, whatever 0-3 bytes trail them. */
  lemma {:induction false} DecodeEncode(ws: seq<Word>, tail: seq<Byte>)
    requires |tail| < 4
    ensures Decode(Encode(ws) + tail) == ws
    decreases |ws|
  {
    if |ws| == 0 {
      assert Encode(ws) + tail == tail;
    } else {
      var bs := Encode(ws) + tail;
      var head := WordBytes(ws[0]);
      assert bs == head + (Encode(ws[1..]) + tail);
      assert bs[4..] == Encode(ws[1..]) + tail;
      BigEndianOfWordBytes(ws[0]);
      DecodeEncode(ws[1..], tail);
    }
  }

  /** Encoding the decoded samples gives back the stream up to its last whole sample. */
  lemma {:induction false} EncodeDecode(bytes: seq<Byte>)
    ensures Encode(Decode(bytes)) == bytes[..|bytes| / 4 * 4]
    decreases |bytes|
  {
    if |bytes| >= 4 {
      var ws := Decode(bytes);
      assert ws[1..] == Decode(bytes[4..]);
      EncodeDecode(bytes[4..]);
      WordBytesOfBigEndian(bytes[0], bytes[1], bytes[2], bytes[3]);
      assert bytes[..|bytes| / 4 * 4] == bytes[..4] + bytes[4..][..|bytes[4..]| / 4 * 4];
    }
  }

  /** Trailing 1-3 bytes never change the decoded samples. */
  lemma {:induction false} DecodeDropsPartialSample(bytes: seq<Byte>, tail: seq<Byte>)
    requires |bytes| % 4 == 0 && |tail| < 4
    ensures Decode(bytes + tail) == Decode(bytes)
  {
    var ws := Decode(bytes + tail);
    var vs := Decode(bytes);
    assert |ws| == |vs|;
    forall i | 0 <= i < |ws| ensures ws[i] == vs[i] {
      assert WordAt(bytes + tail, i) == WordAt(bytes, i);
    }
  }
}
