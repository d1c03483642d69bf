/**
  AMD cache and TLB geometry (cpuid-amd.c, `decode_AMD_cacheinfo`): the
  byte fields of leaf 0x80000005 (TLBs and L1 caches) and the irregular
  16/4/4/8-bit fields of leaf 0x80000006 (on-die L2).
 */
module AmdCache {
  import opened X86Info

  /** One TLB: its associativity and its number of entries. */
  datatype TlbGeometry = TlbGeometry(assoc: bv32, entries: bv32)

  /** One cache: size in KB, associativity, lines per tag and line size. */
  datatype CacheGeometry = CacheGeometry(sizeKb: bv32, assoc: bv32, linesPerTag: bv32, lineSize: bv32)

  /** What leaf 0x80000005 describes. */
  datatype L1Report = L1Report(dataTlb: TlbGeometry, instrTlb: TlbGeometry,
                               dataCache: CacheGeometry, instrCache: CacheGeometry)

  /** What `decode_AMD_cacheinfo` reports: each part absent when its leaf is beyond the bound. */
  datatype CacheReport = CacheReport(l1: Option<L1Report>, l2: Option<CacheGeometry>)

  /** Both TLBs fit the byte layout of EBX. */
  predicate TlbsFit(data: TlbGeometry, instr: TlbGeometry)
  {
    data.assoc < 256 && data.entries < 256 && instr.assoc < 256 && instr.entries < 256
  }

  /** The EBX word of leaf 0x80000005 that describes the two TLBs, high byte first. */
  function EncodeTlbs(data: TlbGeometry, instr: TlbGeometry): bv32
  {
    (data.assoc << 24) | (data.entries << 16) | (instr.assoc << 8) | instr.entries
  }

  /** The data TLB: associativity in bits 24-31, entries in bits 16-23. */
  function DataTlb(ebx: bv32): (t: TlbGeometry)
    ensures t.assoc < 256 && t.entries < 256
    ensures (t.assoc << 24) | (t.entries << 16) | (ebx & 0xffff) == ebx
  {
    TlbGeometry(ebx >> 24, (ebx >> 16) & 0xff)
  }

  /** The instruction TLB: associativity in bits 8-15, entries in bits 0-7. */
  function InstrTlb(ebx: bv32): (t: TlbGeometry)
    ensures t.assoc < 256 && t.entries < 256
    ensures ((ebx >> 16) << 16) | (t.assoc << 8) | t.entries == ebx
  {
    TlbGeometry((ebx >> 8) & 0xff, ebx & 0xff)
  }

  /** The four TLB fields are the four bytes of EBX: each fits a byte and together they rebuild it. */
  lemma TlbFieldsAreBytes(ebx: bv32)
    ensures TlbsFit(DataTlb(ebx), InstrTlb(ebx))
    ensures EncodeTlbs(DataTlb(ebx), InstrTlb(ebx)) == ebx
  {
  }

  /** Decoding an encoded pair of TLBs gives them back. */
  lemma TlbRoundTrip(data: TlbGeometry, instr: TlbGeometry)
    requires TlbsFit(data, instr)
    ensures DataTlb(EncodeTlbs(data, instr)) == data && InstrTlb(EncodeTlbs(data, instr)) == instr
  {
  }

  /** An L1 cache fits the byte layout of leaf 0x80000005. */
  predicate L1Fits(g: CacheGeometry)
  {
    g.sizeKb < 256 && g.assoc < 256 && g.linesPerTag < 256 && g.lineSize < 256
  }

  /** The ECX (data) or EDX (instruction) word of leaf 0x80000005 describing one L1 cache. */
  function EncodeL1(g: CacheGeometry): bv32
  {
    (g.sizeKb << 24) | (g.assoc << 16) | (g.linesPerTag << 8) | g.lineSize
  }

  /** One L1 cache from its register: size, associativity, lines per tag, line size, high byte first. */
  function DecodeL1(reg: bv32): (g: CacheGeometry)
    ensures L1Fits(g)
    ensures EncodeL1(g) == reg
  {
    CacheGeometry(reg >> 24, (reg >> 16) & 0xff, (reg >> 8) & 0xff, reg & 0xff)
  }

  /** Decoding an encoded L1 cache gives it back. */
  lemma L1RoundTrip(g: CacheGeometry)
    requires L1Fits(g)
    ensures DecodeL1(EncodeL1(g)) == g
  {
  }

  /** The L2 cache fits the layout of leaf 0x80000006's ECX. */
  predicate L2Fits(g: CacheGeometry)
  {
    g.sizeKb < 0x1_0000 && g.assoc < 16 && g.linesPerTag < 16 && g.lineSize < 256
  }

  /** The ECX word of leaf 0x80000006: a 16-bit size, two 4-bit fields and a byte. */
  function EncodeL2(g: CacheGeometry): bv32
  {
    (g.sizeKb << 16) | (g.assoc << 12) | (g.linesPerTag << 8) | g.lineSize
  }

  /**
    The on-die L2 cache from ECX: size in bits 16-31, associativity in bits
    12-15, lines per tag in bits 8-11 and line size in bits 0-7.
   */
  function DecodeL2(ecx: bv32): (g: CacheGeometry)
    ensures L2Fits(g)
    ensures EncodeL2(g) == ecx
  {
    CacheGeometry(ecx >> 16, (ecx >> 12) & 0x0f, (ecx >> 8) & 0x0f, ecx & 0xff)
  }

  /** Decoding an encoded L2 cache gives it back. */
  lemma L2RoundTrip(g: CacheGeometry)
    requires L2Fits(g)
    ensures DecodeL2(EncodeL2(g)) == g
  {
  }

  /** The L2 fields occupy disjoint bits that together cover the word. */
  lemma L2FieldsDisjoint(ecx: bv32)
    ensures DecodeL2(ecx).sizeKb << 16 == ecx & 0xffff_0000
    ensures DecodeL2(ecx).assoc << 12 == ecx & 0xf000
    ensures DecodeL2(ecx).linesPerTag << 8 == ecx & 0x0f00
    ensures DecodeL2(ecx).lineSize == ecx & 0xff
  {
  }

  /** The two byte-layout examples: 0x02040708 and 0x01080808 as L1 caches. */
  lemma L1Examples()
    ensures DecodeL1(0x0204_0708) == CacheGeometry(2, 4, 7, 8)
    ensures DecodeL1(0x0108_0808) == CacheGeometry(1, 8, 8, 8)
  {
  }

  /** Leaf 0x80000005 decoded. */
  function DecodeL1Leaf(r: Regs): (l: L1Report)
  {
    L1Report(DataTlb(r.ebx), InstrTlb(r.ebx), DecodeL1(r.ecx), DecodeL1(r.edx))
  }

  /**
    `decode_AMD_cacheinfo`: the TLB/L1 leaf is decoded only when `maxei`
    reaches 0x80000005 and the L2 leaf only when it reaches 0x80000006; what
    is decoded rebuilds the registers it came from.
   */
  function DecodeCacheInfo(cpuid: CpuidFn, cpunum: int, maxei: bv32): (r: CacheReport)
    ensures r.l1.Some? <==> maxei >= 0x8000_0005
    ensures r.l2.Some? <==> maxei >= 0x8000_0006
    ensures r.l1.Some? ==>
              var leaf := cpuid(cpunum, 0x8000_0005);
              EncodeTlbs(r.l1.value.dataTlb, r.l1.value.instrTlb) == leaf.ebx &&
              EncodeL1(r.l1.value.dataCache) == leaf.ecx && EncodeL1(r.l1.value.instrCache) == leaf.edx &&
              TlbsFit(r.l1.value.dataTlb, r.l1.value.instrTlb) &&
              L1Fits(r.l1.value.dataCache) && L1Fits(r.l1.value.instrCache)
    ensures r.l2.Some? ==> EncodeL2(r.l2.value) == cpuid(cpunum, 0x8000_0006).ecx && L2Fits(r.l2.value)
  {
    var l1 := if maxei >= 0x8000_0005 then Some(DecodeL1Leaf(cpuid(cpunum, 0x8000_0005))) else None;
    var l2 := if maxei >= 0x8000_0006 then Some(DecodeL2(cpuid(cpunum, 0x8000_0006).ecx)) else None;
    TlbFieldsAreBytes(cpuid(cpunum, 0x8000_0005).ebx);
    CacheReport(l1, l2)
  }
}
