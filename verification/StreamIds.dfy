/** Blocks of request numbers: every stream starts counting at its id times one million, web-socket
    streams in 32 bits and market-data streams in 64 bits. */
module StreamIds {
  import opened Words
  import opened WSAPIRequest
  import opened WebSocket
  import opened WebSocketRun

  /** The n-th request number of a web-socket stream. */
  function Number32(streamId: uint16, n: nat): uint32 {
    (REQUEST_ID * streamId % TWO_32 + n) % TWO_32
  }

  /** The n-th request number of a market-data stream. */
  function Number64(streamId: uint16, n: nat): uint64 {
    (streamId * REQUEST_ID + n) % TWO_64
  }

  /** Two streams never draw the same number while each makes fewer than a million requests. */
  ghost predicate Disjoint32(s: uint16, t: uint16) {
    forall n: nat, m: nat :: 0 < n < REQUEST_ID && 0 < m < REQUEST_ID ==> Number32(s, n) != Number32(t, m)
  }

  const LAST_DISJOINT := 4294

  lemma OnlyMultiples(t: nat, k: nat)
    ensures 15_625 * t == 67_108_864 * k ==> k == 15_625 * (12_659 * t - 54_369_991 * k)
  {
  }

  /** Where the block of a late stream starts, once wrapped: at an even number other than zero. */
  lemma WrappedStart(t: uint16) returns (h: nat)
    requires LAST_DISJOINT < t
    ensures REQUEST_ID * t % TWO_32 == 2 * h && 0 < h < 0x8000_0000
  {
    var k := 1_000_000 * t / 0x1_0000_0000;
    assert 0 < k < 16;
    h := 500_000 * t - k * 0x8000_0000;
    OnlyMultiples(t, k);
    assert h != 0;
    assert 1_000_000 * t == k * 0x1_0000_0000 + 2 * h;
  }

  lemma NumberFrom(s: uint16, v: nat, n: nat)
    requires v == REQUEST_ID * s % TWO_32 && v + n < TWO_32
    ensures Number32(s, n) == v + n
  {
  }

  lemma Unwrapped(s: uint16, n: nat)
    requires REQUEST_ID * s + n < TWO_32
    ensures Number32(s, n) == REQUEST_ID * s + n
  {
  }

  /** Any odd number splits into a block and a place other than its first. */
  lemma Place(u: nat) returns (s: nat, n: nat)
    requires u % 2 == 1 && REQUEST_ID < u < TWO_32
    ensures u == REQUEST_ID * s + n && 0 < s <= LAST_DISJOINT && 0 < n < REQUEST_ID
  {
    s, n := u / REQUEST_ID, u % REQUEST_ID;
    assert u == REQUEST_ID * s + n;
  }

  /** How far into that block an odd number outside block 0 comes. */
  lemma Offset(h: nat) returns (m: nat)
    requires 0 < h < 0x8000_0000
    ensures m % 2 == 1 && m < REQUEST_ID && REQUEST_ID < 2 * h + m < TWO_32
  {
    m := if 2 * h < REQUEST_ID then REQUEST_ID + 1 - 2 * h else 1;
  }

  lemma Collision(t: uint16) returns (s: uint16, n: nat, m: nat)
    requires LAST_DISJOINT < t
    ensures 0 < s <= LAST_DISJOINT && 0 < n < REQUEST_ID && 0 < m < REQUEST_ID && Number32(s, n) == Number32(t, m)
  {
    hide Number32;
    var h := WrappedStart(t);
    m := Offset(h);
    s, n := Place(2 * h + m);
    Unwrapped(s, n);
    NumberFrom(t, 2 * h, m);
  }

  /** The 32-bit block of a stream is clear of the blocks of all streams before it exactly up to stream
      4294; from stream 4295 on it has wrapped round into theirs. */
  lemma BlocksDisjoint(t: uint16)
    requires t > 0
    ensures t <= LAST_DISJOINT <==> forall s: uint16 :: 0 < s < t ==> Disjoint32(s, t)
  {
    if t > LAST_DISJOINT {
      var s, n, m := Collision(t);
      assert !Disjoint32(s, t);
    }
  }

  /** In 64 bits nothing wraps: two streams draw the same number only if one of them has made a million
      requests or more, and then the next stream's first number is taken. */
  lemma Blocks64(s: uint16, t: uint16, n: nat, m: nat)
    requires s < t && 0 < n < TWO_32 && 0 < m < TWO_32
    ensures Number64(s, n) == Number64(t, m) ==> n > REQUEST_ID
    ensures Number64(s, REQUEST_ID * (t - s) + m) == Number64(t, m)
  {
  }

  /** Over whole runs: no two web-socket streams with ids up to 4294 ever hand out the same id while each
      makes fewer than a million requests. */
  lemma IdsOfStreamsDiffer(r: Trace, k: nat, i: nat, q: Trace, l: nat, j: nat)
    requires Run(r) && k < |r.states| && i < |r.states[k].sent| && i + 1 < REQUEST_ID
    requires Run(q) && l < |q.states| && j < |q.states[l].sent| && j + 1 < REQUEST_ID
    requires 0 < r.config.streamId < q.config.streamId <= LAST_DISJOINT
    ensures r.states[k].sent[i].id != q.states[l].sent[j].id
  {
    hide EncodeText, TypeOfRpc;
    RunLogged(r, k);
    RunLogged(q, l);
    BlocksDisjoint(q.config.streamId);
    assert Disjoint32(r.config.streamId, q.config.streamId);
    assert Sequence(r.config, i) == Number32(r.config.streamId, i + 1);
    assert Sequence(q.config, j) == Number32(q.config.streamId, j + 1);
    if r.states[k].sent[i].id == q.states[l].sent[j].id {
      Injective(RequestOf(r.config, i, r.states[k].sent[i]), RequestOf(q.config, j, q.states[l].sent[j]));
    }
  }
}
