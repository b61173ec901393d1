/** Machine words as they lie in memory: unsigned integers of the widths the gateway uses, and the
    little-endian byte strings that a plain memory copy of them produces. */
module Words {
  const TWO_8 := 0x100
  const TWO_16 := 0x1_0000
  const TWO_32 := 0x1_0000_0000
  const TWO_64 := 0x1_0000_0000_0000_0000

  type uint8 = x: int | 0 <= x < TWO_8
  type uint16 = x: int | 0 <= x < TWO_16
  type uint32 = x: int | 0 <= x < TWO_32
  type uint64 = x: int | 0 <= x < TWO_64

  /** The number of values that fit in `width` bytes. */
  function Capacity(width: nat): (c: nat)
    ensures c >= 1
  {
    if width == 0 then 1 else TWO_8 * Capacity(width - 1)
  }

  /** The `width` lowest bytes of `value`, least significant byte first. */
  function LittleEndian(value: nat, width: nat): (bytes: seq<uint8>)
    ensures |bytes| == width
  {
    if width == 0 then [] else [value % TWO_8] + LittleEndian(value / TWO_8, width - 1)
  }

  /** The number that a little-endian byte string denotes. */
  function FromLittleEndian(bytes: seq<uint8>): (value: nat)
  {
    if bytes == [] then 0 else bytes[0] + TWO_8 * FromLittleEndian(bytes[1..])
  }

  lemma {:induction false} StoreThenLoad(value: nat, width: nat)
    requires value < Capacity(width)
    ensures FromLittleEndian(LittleEndian(value, width)) == value
  {
    if width > 0 {
      StoreThenLoad(value / TWO_8, width - 1);
      assert LittleEndian(value, width)[1..] == LittleEndian(value / TWO_8, width - 1);
    }
  }

  lemma DivMod(b: uint8, rest: nat)
    ensures (b + TWO_8 * rest) % TWO_8 == b && (b + TWO_8 * rest) / TWO_8 == rest
  {
  }

  lemma {:induction false} LoadThenStore(bytes: seq<uint8>)
    ensures FromLittleEndian(bytes) < Capacity(|bytes|)
    ensures LittleEndian(FromLittleEndian(bytes), |bytes|) == bytes
  {
    if bytes != [] {
      var rest := FromLittleEndian(bytes[1..]);
      LoadThenStore(bytes[1..]);
      DivMod(bytes[0], rest);
      assert FromLittleEndian(bytes) == bytes[0] + TWO_8 * rest;
    }
  }

  lemma Capacities()
    ensures Capacity(4) == TWO_32 && Capacity(8) == TWO_64
  {
    assert Capacity(1) == TWO_8;
    assert Capacity(2) == TWO_16;
    assert Capacity(3) == 0x100_0000;
    assert Capacity(5) == 0x100_0000_0000;
    assert Capacity(6) == 0x1_0000_0000_0000;
    assert Capacity(7) == 0x100_0000_0000_0000;
  }

  /** Copies a word of `width` bytes into `data`, one byte at a time from the lowest address. */
  method Store(data: array<uint8>, offset: nat, width: nat, value: nat)
    requires offset + width <= data.Length
    modifies data
    ensures data[..] == old(data[..offset]) + LittleEndian(value, width) + old(data[offset + width..])
  {
    var rest: nat := value;
    ghost var bytes := LittleEndian(value, width);
    for i := 0 to width
      invariant LittleEndian(rest, width - i) == bytes[i..]
      invariant forall k :: 0 <= k < i ==> data[offset + k] == bytes[k]
      invariant forall k :: 0 <= k < offset || offset + i <= k < data.Length ==> data[k] == old(data[k])
    {
      assert bytes[i..][0] == bytes[i] && bytes[i..][1..] == bytes[i + 1..];
      data[offset + i] := rest % TWO_8;
      rest := rest / TWO_8;
    }
    assert data[..offset] == old(data[..offset]) && data[offset + width..] == old(data[offset + width..]);
    assert data[offset..offset + width] == bytes;
    assert data[..] == data[..offset] + data[offset..offset + width] + data[offset + width..];
  }

  /** Reads a word of `width` bytes back from `data`. */
  method Load(data: array<uint8>, offset: nat, width: nat) returns (value: nat)
    requires offset + width <= data.Length
    ensures value == FromLittleEndian(data[offset..offset + width])
  {
    value := 0;
    for i := width downto 0
      invariant value == FromLittleEndian(data[offset + i..offset + width])
    {
      assert data[offset + i..offset + width][1..] == data[offset + i + 1..offset + width];
      value := data[offset + i] + TWO_8 * value;
    }
  }
}
