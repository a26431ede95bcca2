/** Guest memory as the time shim sees it: a byte-addressed 32-bit address
    space, written through a typed write that stores a plain-old-data record
    as its bytes. Only the interface the shim consumes is modelled here; how
    the memory layer maps, protects or faults on addresses is not. */
module GuestMem {

  newtype u8 = x: int | 0 <= x < 0x100
  newtype u32 = x: int | 0 <= x < 0x1_0000_0000

  /** Size of the guest's 32-bit address space. */
  const ADDRESS_SPACE_SIZE: nat := 0x1_0000_0000

  /** A guest pointer: a 32-bit virtual address. */
  type VAddr = u32

  /** The `len` bytes starting at `addr` lie inside the address space and
      are mapped, so a write of that many bytes there does not fault. */
  predicate Mapped(m: map<nat, u8>, addr: nat, len: nat)
  {
    addr + len <= ADDRESS_SPACE_SIZE &&
    forall a :: addr <= a < addr + len ==> a in m
  }

  /** The bytes of a `u32` as the memory layer stores them (least
      significant byte first). */
  function EncodeU32(x: u32): (b: seq<u8>)
    ensures |b| == 4
  {
    var x1 := x as int / 0x100;
    var x2 := x1 / 0x100;
    [(x as int % 0x100) as u8, (x1 % 0x100) as u8, (x2 % 0x100) as u8, (x2 / 0x100) as u8]
  }

  /** The `u32` that four stored bytes represent. */
  function DecodeU32(b: seq<u8>): (x: u32)
    requires |b| == 4
  {
    (b[0] as int + 0x100 * (b[1] as int + 0x100 * (b[2] as int + 0x100 * b[3] as int))) as u32
  }

  /** Storing a `u32` and reading it back gives the same value. */
  lemma DecodeEncodeU32(x: u32)
    ensures DecodeU32(EncodeU32(x)) == x
  {
  }

  /** The memory after storing `data` at `addr`: the stored bytes are
      `data`, the set of mapped addresses and every byte outside
      `[addr, addr + |data|)` are as before. */
  function WriteBytes(m: map<nat, u8>, addr: nat, data: seq<u8>): (r: map<nat, u8>)
    requires Mapped(m, addr, |data|)
    ensures r.Keys == m.Keys
    ensures forall k :: 0 <= k < |data| ==> r[addr + k] == data[k]
    ensures forall a :: a in m && !(addr <= a < addr + |data|) ==> r[a] == m[a]
  {
    map a | a in m :: if addr <= a < addr + |data| then data[a - addr] else m[a]
  }

  /** The `len` bytes stored at `addr`. */
  function ReadBytes(m: map<nat, u8>, addr: nat, len: nat): (r: seq<u8>)
    requires Mapped(m, addr, len)
    ensures |r| == len
    ensures forall k :: 0 <= k < len ==> r[k] == m[addr + k]
  {
    seq(len, k requires 0 <= k < len => m[addr + k])
  }

  /** Reading back the bytes just written gives exactly those bytes. */
  lemma ReadAfterWrite(m: map<nat, u8>, addr: nat, data: seq<u8>)
    requires Mapped(m, addr, |data|)
    ensures Mapped(WriteBytes(m, addr, data), addr, |data|)
    ensures ReadBytes(WriteBytes(m, addr, data), addr, |data|) == data
  {
  }

  /** The guest's memory, updated in place by typed writes. */
  class Memory {
    var bytes: map<nat, u8>

    constructor (initial: map<nat, u8>)
      ensures bytes == initial
    {
      bytes := initial;
    }

    /** Stores `data` at `addr` in one write; the memory layer raises the
        fault for an unmapped range, so callers hand it mapped ones. */
    method Write(addr: nat, data: seq<u8>)
      requires Mapped(bytes, addr, |data|)
      modifies this
      ensures bytes == WriteBytes(old(bytes), addr, data)
    {
      bytes := WriteBytes(bytes, addr, data);
    }
  }
}
