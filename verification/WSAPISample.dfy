/** An order id as it came back from the exchange: it pins down the order of the fields, the order of the
    bytes within them, and the alphabet. */
module WSAPISample {
  import opened Words
  import opened WSAPIRequest
  import Base64Url

  const SAMPLE := Request(2_000_007, ORDER_PLACE, 2, 329_455_577_184, 1, 0)

  function Zeros(n: nat): (z: seq<uint8>)
    ensures |z| == n && forall i :: 0 <= i < n ==> z[i] == 0
  {
    seq(n, _ => 0)
  }

  lemma {:induction false} ZerosValue(n: nat)
    ensures FromLittleEndian(Zeros(n)) == 0
  {
    if n > 0 {
      ZerosValue(n - 1);
      Cons(0, Zeros(n - 1));
      assert Zeros(n) == [0] + Zeros(n - 1);
    }
  }

  lemma Cons(b: uint8, rest: seq<uint8>)
    ensures FromLittleEndian([b] + rest) == b + TWO_8 * FromLittleEndian(rest)
  {
    assert ([b] + rest)[1..] == rest;
  }

  lemma SampleSequence()
    ensures FromLittleEndian([135, 132, 30, 0]) == SAMPLE.sequence
  {
    ZerosValue(1);
    Cons(30, Zeros(1));
    Cons(132, [30] + Zeros(1));
    Cons(135, [132] + ([30] + Zeros(1)));
    assert [135, 132, 30, 0] == [135] + ([132] + ([30] + Zeros(1)));
  }

  lemma SampleOrderId()
    ensures FromLittleEndian([96, 40, 21, 181, 76] + Zeros(3)) == SAMPLE.orderId
  {
    var t := [76] + Zeros(3);
    ZerosValue(3);
    Cons(76, Zeros(3));
    Cons(181, t);
    Cons(21, [181] + t);
    Cons(40, [21] + ([181] + t));
    Cons(96, [40] + ([21] + ([181] + t)));
    assert [96, 40, 21, 181, 76] + Zeros(3) == [96] + ([40] + ([21] + ([181] + t)));
  }

  const SAMPLE_DATA: seq<uint8> := [135, 132, 30, 0, 7, 2] + ([96, 40, 21, 181, 76] + Zeros(3)) + ([1] + Zeros(3)) + Zeros(9)

  lemma SampleBytes()
    ensures |SAMPLE_DATA| == DATA_LENGTH && Bytes(SAMPLE) == SAMPLE_DATA
  {
    var b := SAMPLE_DATA;
    hide Zeros;
    assert b[0..4] == [135, 132, 30, 0] && b[4] == 7 && b[5] == 2;
    assert b[6..14] == [96, 40, 21, 181, 76] + Zeros(3);
    assert b[14..18] == [1] + Zeros(3);
    assert b[18..26] == Zeros(8);
    SampleSequence();
    SampleOrderId();
    ZerosValue(3);
    Cons(1, Zeros(3));
    ZerosValue(8);
    BytesFromBytes(b);
  }

  function Filler(n: nat): (text: string)
    ensures |text| == n && forall i :: 0 <= i < n ==> text[i] == 'A'
  {
    if n == 0 then "" else ['A'] + Filler(n - 1)
  }

  lemma EncodeStep(b0: uint8, b1: uint8, b2: uint8, rest: seq<uint8>)
    requires |rest| % 3 == 0
    ensures |[b0, b1, b2] + rest| % 3 == 0
    ensures Base64Url.Encode([b0, b1, b2] + rest) == Base64Url.EncodeBlock(b0, b1, b2) + Base64Url.Encode(rest)
  {
    assert ([b0, b1, b2] + rest)[3..] == rest;
  }

  lemma ZeroBlock()
    ensures Base64Url.EncodeBlock(0, 0, 0) == "AAAA"
  {
  }

  lemma FourFillers(n: nat)
    ensures Filler(n + 4) == "AAAA" + Filler(n)
  {
  }

  lemma ThreeZeros(n: nat)
    ensures Zeros(n + 3) == [0, 0, 0] + Zeros(n)
  {
    hide Zeros;
  }

  lemma {:induction false} EncodeZeros(n: nat)
    ensures Base64Url.Encode(Zeros(3 * n)) == Filler(4 * n)
  {
    if n > 0 {
      hide Base64Url.EncodeBlock, Base64Url.Encode, Zeros, Filler;
      EncodeZeros(n - 1);
      ThreeZeros(3 * (n - 1));
      FourFillers(4 * (n - 1));
      ZeroBlock();
      EncodeStep(0, 0, 0, Zeros(3 * (n - 1)));
    }
  }

  lemma SampleBlocks()
    ensures Base64Url.EncodeBlock(135, 132, 30) == "h4Qe" && Base64Url.EncodeBlock(0, 7, 2) == "AAcC"
    ensures Base64Url.EncodeBlock(96, 40, 21) == "YCgV" && Base64Url.EncodeBlock(181, 76, 0) == "tUwA"
    ensures Base64Url.EncodeBlock(0, 0, 1) == "AAAB"
  {
  }

  const SAMPLE_BLOCKS: seq<uint8> := [135, 132, 30] + ([0, 7, 2] + ([96, 40, 21] + ([181, 76, 0] + ([0, 0, 1] + Zeros(12)))))

  lemma SampleSplit()
    ensures SAMPLE_BLOCKS == SAMPLE_DATA
  {
    hide Zeros;
  }

  lemma SampleEncoded()
    ensures |SAMPLE_BLOCKS| % 3 == 0
    ensures Base64Url.Encode(SAMPLE_BLOCKS) == "h4Qe" + ("AAcC" + ("YCgV" + ("tUwA" + ("AAAB" + Filler(16)))))
  {
    SampleBlocks();
    EncodeZeros(4);
    hide *;
    var t0 := Zeros(12);
    var t1 := [0, 0, 1] + t0;
    var t2 := [181, 76, 0] + t1;
    var t3 := [96, 40, 21] + t2;
    var t4 := [0, 7, 2] + t3;
    EncodeStep(0, 0, 1, t0);
    EncodeStep(181, 76, 0, t1);
    EncodeStep(96, 40, 21, t2);
    EncodeStep(0, 7, 2, t3);
    EncodeStep(135, 132, 30, t4);
  }

  /** The id of that order request as the exchange echoed it; the rest of it is all A. */
  lemma SampleText()
    ensures EncodeText(SAMPLE) == "h4Qe" + ("AAcC" + ("YCgV" + ("tUwA" + ("AAAB" + Filler(16)))))
  {
    SampleBytes();
    SampleSplit();
    SampleEncoded();
    hide Bytes, Filler, Zeros, Base64Url.Encode;
  }
}
