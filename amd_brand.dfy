/**
  The processor name string of leaves 0x80000002..0x80000004 (cpuid-amd.c,
  `doamd`): 48 bytes copied into a character buffer, leaf by leaf, register by
  register in the order EAX, EBX, ECX, EDX, each register least-significant
  byte first.
 */
module AmdBrand {
  import opened X86Info

  /** An 8-bit value: what one `char` of the name buffer holds. */
  type Byte = b: bv32 | b < 0x100

  /**
    The i-th byte of a register, counting from the least significant: what
    `*cp++ = reg >> (8 * i)` stores once the char truncates it.
   */
  function ByteOf(x: bv32, i: nat): (b: Byte)
    requires i < 4
    ensures b == (x >> (8 * i)) & 0xff
  {
    if i == 0 then x & 0xff
    else if i == 1 then (x >> 8) & 0xff
    else if i == 2 then (x >> 16) & 0xff
    else x >> 24
  }

  /** A register's four bytes in memory order (little-endian). */
  function RegBytes(x: bv32): seq<Byte>
  {
    [ByteOf(x, 0), ByteOf(x, 1), ByteOf(x, 2), ByteOf(x, 3)]
  }

  /** The register four little-endian bytes stand for. */
  function FromBytes(b: seq<Byte>): bv32
    requires |b| == 4
  {
    b[0] | ((b[1] as bv32) << 8) | ((b[2] as bv32) << 16) | ((b[3] as bv32) << 24)
  }

  /** Splitting a register into its bytes loses nothing. */
  lemma RegBytesRoundTrip(x: bv32)
    ensures FromBytes(RegBytes(x)) == x
  {
  }

  /** And four bytes packed into a register come back in the same order. */
  lemma FromBytesRoundTrip(b: seq<Byte>)
    requires |b| == 4
    ensures RegBytes(FromBytes(b)) == b
  {
  }

  /** Register n of a leaf, in the copy order EAX, EBX, ECX, EDX. */
  function RegAt(r: Regs, n: nat): bv32
    requires n < 4
  {
    match n
    case 0 => r.eax
    case 1 => r.ebx
    case 2 => r.ecx
    case _ => r.edx
  }

  /**
    The 16 bytes one leaf contributes: the bytes of EAX, then EBX, ECX and
    EDX, byte m being byte m mod 4 of register m / 4.
   */
  function LeafBytes(r: Regs): seq<Byte>
  {
    seq(16, m requires 0 <= m < 16 => ByteOf(RegAt(r, m / 4), m % 4))
  }

  /** The 48 bytes of the name: leaf 0x80000002's, then 0x80000003's, then 0x80000004's. */
  function BrandBytes(cpuid: CpuidFn, cpunum: int): seq<Byte>
  {
    LeafBytes(cpuid(cpunum, 0x8000_0002)) + LeafBytes(cpuid(cpunum, 0x8000_0003)) +
    LeafBytes(cpuid(cpunum, 0x8000_0004))
  }

  /**
    Where byte k of the name comes from: byte k mod 4 of register (k / 4) mod 4
    of leaf 0x80000002 + k / 16.
   */
  function BrandByte(cpuid: CpuidFn, cpunum: int, k: nat): Byte
    requires k < 48
  {
    ByteOf(RegAt(cpuid(cpunum, 0x8000_0002 + k / 16), (k / 4) % 4), k % 4)
  }

  /** Byte 4q + i of one leaf's 16 bytes is byte i of register q. */
  lemma LeafByteAt(r: Regs, q: nat, i: nat)
    requires q < 4 && i < 4
    ensures |LeafBytes(r)| == 16 && LeafBytes(r)[4 * q + i] == ByteOf(RegAt(r, q), i)
  {
    assert (4 * q + i) / 4 == q && (4 * q + i) % 4 == i;
  }

  /** Bytes 4q to 4q + 3 of a leaf are register q's bytes, least significant first. */
  lemma LeafRegisterSlice(r: Regs, q: nat)
    requires q < 4
    ensures LeafBytes(r)[4 * q .. 4 * q + 4] == RegBytes(RegAt(r, q))
  {
    forall i | 0 <= i < 4
      ensures LeafBytes(r)[4 * q + i] == RegBytes(RegAt(r, q))[i]
    {
      LeafByteAt(r, q, i);
    }
  }

  /** Byte k of the name is byte k mod 16 of its leaf's 16 bytes. */
  lemma BrandByteInLeaf(cpuid: CpuidFn, cpunum: int, k: nat)
    requires k < 48
    ensures BrandByte(cpuid, cpunum, k) == LeafBytes(cpuid(cpunum, 0x8000_0002 + k / 16))[k % 16]
  {
    var q, i := (k / 4) % 4, k % 4;
    assert k % 16 == 4 * q + i;
    LeafByteAt(cpuid(cpunum, 0x8000_0002 + k / 16), q, i);
  }

  /** Byte m of block `block` of the name is byte m of that block's leaf. */
  lemma BrandBytesBlock(cpuid: CpuidFn, cpunum: int, block: nat, m: nat)
    requires block < 3 && m < 16
    ensures |BrandBytes(cpuid, cpunum)| == 48
    ensures BrandBytes(cpuid, cpunum)[16 * block + m] == LeafBytes(cpuid(cpunum, 0x8000_0002 + block))[m]
  {
    var a, b, c := LeafBytes(cpuid(cpunum, 0x8000_0002)), LeafBytes(cpuid(cpunum, 0x8000_0003)),
                   LeafBytes(cpuid(cpunum, 0x8000_0004));
    BlockOfThree(a, b, c, block, m);
    match block
    case 0 =>
    case 1 =>
    case 2 =>
  }

  /** Byte m of block `block` of three 16-byte blocks laid end to end. */
  lemma BlockOfThree(a: seq<Byte>, b: seq<Byte>, c: seq<Byte>, block: nat, m: nat)
    requires |a| == |b| == |c| == 16 && block < 3 && m < 16
    ensures |a + b + c| == 48
    ensures (a + b + c)[16 * block + m] == (if block == 0 then a else if block == 1 then b else c)[m]
  {
  }

  /** The concatenation and the byte-by-byte provenance describe the same 48 bytes. */
  lemma BrandByteAt(cpuid: CpuidFn, cpunum: int, k: nat)
    requires k < 48
    ensures |BrandBytes(cpuid, cpunum)| == 48
    ensures BrandBytes(cpuid, cpunum)[k] == BrandByte(cpuid, cpunum, k)
  {
    var block, m := k / 16, k % 16;
    assert k == 16 * block + m;
    BrandBytesBlock(cpuid, cpunum, block, m);
    BrandByteInLeaf(cpuid, cpunum, k);
  }

  /** The bytes read as text, one character per byte. */
  function AsText(b: seq<Byte>): string
  {
    seq(|b|, i requires 0 <= i < |b| => (b[i] as int) as char)
  }

  /** EAX = 0x20444D41 of leaf 0x80000002 makes the name start with "AMD ". */
  lemma AmdPrefix(cpuid: CpuidFn, cpunum: int)
    requires cpuid(cpunum, 0x8000_0002).eax == 0x2044_4D41
    ensures AsText(BrandBytes(cpuid, cpunum)[..4]) == "AMD "
  {
    var s := BrandBytes(cpuid, cpunum)[..4];
    forall i | 0 <= i < 4
      ensures s[i] == ByteOf(0x2044_4D41, i)
    {
      BrandBytesBlock(cpuid, cpunum, 0, i);
      LeafByteAt(cpuid(cpunum, 0x8000_0002), 0, i);
    }
    assert s == [0x41, 0x4D, 0x44, 0x20];
  }

  /**
    One of the four `for (i = 0; i < 4; i++) *cp++ = reg >> (8 * i);` loops:
    stores the register's bytes at cp..cp+3 and returns the advanced pointer.
   */
  method StoreRegister(buf: array<Byte>, cp: nat, reg: bv32) returns (next: nat)
    requires cp + 4 <= buf.Length
    modifies buf
    ensures next == cp + 4
    ensures forall k :: 0 <= k < cp ==> buf[k] == old(buf[k])
    ensures forall k :: cp + 4 <= k < buf.Length ==> buf[k] == old(buf[k])
    ensures forall i :: 0 <= i < 4 ==> buf[cp + i] == ByteOf(reg, i)
  {
    next := cp;
    for i := 0 to 4
      invariant next == cp + i
      invariant forall k :: 0 <= k < cp ==> buf[k] == old(buf[k])
      invariant forall k :: cp + 4 <= k < buf.Length ==> buf[k] == old(buf[k])
      invariant forall j :: 0 <= j < i ==> buf[cp + j] == ByteOf(reg, j)
    {
      buf[next] := ByteOf(reg, i);
      next := next + 1;
    }
  }

  /**
    The body of the name-string loop for one leaf: the four inner loops, for
    EAX, EBX, ECX and EDX in that order, store the leaf at cp..cp+15, byte i
    of register q at cp + 4q + i.
   */
  method StoreLeaf(buf: array<Byte>, cp: nat, r: Regs) returns (next: nat)
    requires cp + 16 <= buf.Length
    modifies buf
    ensures next == cp + 16
    ensures forall k :: 0 <= k < cp ==> buf[k] == old(buf[k])
    ensures forall k :: cp + 16 <= k < buf.Length ==> buf[k] == old(buf[k])
    ensures forall q, i :: 0 <= q < 4 && 0 <= i < 4 ==> buf[cp + 4 * q + i] == ByteOf(RegAt(r, q), i)
  {
    next := cp;
    for q := 0 to 4
      invariant next == cp + 4 * q
      invariant forall k :: 0 <= k < cp ==> buf[k] == old(buf[k])
      invariant forall k :: cp + 16 <= k < buf.Length ==> buf[k] == old(buf[k])
      invariant forall q', i :: 0 <= q' < q && 0 <= i < 4 ==> buf[cp + 4 * q' + i] == ByteOf(RegAt(r, q'), i)
    {
      next := StoreRegister(buf, next, RegAt(r, q));
    }
  }

  /**
    The name-string loop of `doamd`: for each leaf j from 0x80000002 to
    0x80000004, the bytes of EAX, EBX, ECX and EDX through a walking pointer.
    Exactly 48 bytes are written, each from the place `BrandByte` names.
   */
  method AssembleBrand(cpuid: CpuidFn, cpunum: int) returns (name: seq<Byte>)
    ensures |name| == 48
    ensures forall k :: 0 <= k < 48 ==> name[k] == BrandByte(cpuid, cpunum, k)
    ensures name == BrandBytes(cpuid, cpunum)
  {
    var namestring := new Byte[48];
    var cp := 0;
    var j: Leaf := 0x8000_0002;
    while j <= 0x8000_0004
      invariant 0x8000_0002 <= j <= 0x8000_0005
      invariant cp == 16 * (j - 0x8000_0002)
      invariant forall k :: 0 <= k < cp ==> namestring[k] == BrandByte(cpuid, cpunum, k)
    {
      ghost var start := cp;
      cp := StoreLeaf(namestring, cp, cpuid(cpunum, j));
      forall k | start <= k < cp
        ensures namestring[k] == BrandByte(cpuid, cpunum, k)
      {
        var q, i := (k / 4) % 4, k % 4;
        BrandIndex(k, j - 0x8000_0002);
        assert namestring[start + 4 * q + i] == ByteOf(RegAt(cpuid(cpunum, j), q), i);
      }
      j := j + 1;
    }
    name := namestring[..];
    BrandBytesByPosition(cpuid, cpunum, name);
  }

  /** 48 bytes each taken from the place `BrandByte` names are the name's bytes. */
  lemma BrandBytesByPosition(cpuid: CpuidFn, cpunum: int, s: seq<Byte>)
    requires |s| == 48
    requires forall k :: 0 <= k < 48 ==> s[k] == BrandByte(cpuid, cpunum, k)
    ensures s == BrandBytes(cpuid, cpunum)
  {
    forall k | 0 <= k < 48
      ensures s[k] == BrandBytes(cpuid, cpunum)[k]
    {
      BrandByteAt(cpuid, cpunum, k);
    }
    BrandByteAt(cpuid, cpunum, 0);
  }

  /**
    Index arithmetic of the walking pointer: byte k of leaf block `block`
    is byte k mod 4 of register (k / 4) mod 4 of that block.
   */
  lemma BrandIndex(k: nat, block: nat)
    requires 16 * block <= k < 16 * block + 16
    ensures k / 16 == block && k == 16 * block + 4 * ((k / 4) % 4) + k % 4
  {
  }
}
