/**
  AMD identification (cpuid-amd.c): `doamd`, which fills the descriptor's
  vendor and family/model/stepping and reports the marketing name, the
  extended feature word, the name string, the cache geometry and, on request,
  a raw dump of the extended leaves; and `dump_extended_AMD_regs`.
 */
module CpuidAmd {
  import opened X86Info
  import opened AmdNames
  import opened AmdCache
  import opened AmdBrand

  /** One line of the raw dump: a leaf and the registers it returned. */
  datatype DumpRow = DumpRow(leaf: Leaf, regs: Regs)

  /**
    Everything `doamd` prints, as values. `dump` is empty when no dump ran;
    `features` is the EDX handed to `decode_feature_flags`.
   */
  datatype AmdReport = AmdReport(
    dump: seq<DumpRow>,
    name: Option<string>,
    features: Option<bv32>,
    brand: Option<seq<Byte>>,
    cache: Option<CacheReport>)

  /** The highest extended leaf, as a leaf number: the unsigned value of the bound. */
  function LastLeaf(maxei: bv32): Leaf
  {
    maxei as int
  }

  /**
    `rows` is the dump of the extended leaves up to `last`: one row for each
    leaf from 0x80000000 up to and including `last`, in increasing order,
    with the registers that leaf returns; nothing when `last` is below
    0x80000000.
   */
  predicate ExtendedDump(rows: seq<DumpRow>, cpuid: CpuidFn, cpunum: int, last: Leaf)
  {
    |rows| == (if last >= 0x8000_0000 then last - 0x8000_0000 + 1 else 0) &&
    forall k :: 0 <= k < |rows| ==>
      rows[k].leaf == 0x8000_0000 + k && rows[k].regs == cpuid(cpunum, rows[k].leaf)
  }

  /**
    `dump_extended_AMD_regs`, with a counter that cannot wrap: every leaf
    from 0x80000000 to `last` is queried once, in increasing order.
   */
  method DumpExtendedRegs(cpuid: CpuidFn, cpunum: int, last: Leaf) returns (rows: seq<DumpRow>)
    ensures ExtendedDump(rows, cpuid, cpunum, last)
  {
    rows := [];
    var i: int := 0x8000_0000;
    while i <= last
      invariant i == 0x8000_0000 || (0x8000_0000 < i <= last + 1)
      invariant |rows| == i - 0x8000_0000
      invariant forall k :: 0 <= k < |rows| ==>
                  rows[k].leaf == 0x8000_0000 + k && rows[k].regs == cpuid(cpunum, rows[k].leaf)
    {
      rows := rows + [DumpRow(i, cpuid(cpunum, i))];
      i := i + 1;
    }
  }

  /** The dump lists distinct leaves in strictly increasing order, all within 0x80000000..maxei. */
  lemma ExtendedDumpIncreasing(rows: seq<DumpRow>, cpuid: CpuidFn, cpunum: int, last: Leaf, a: int, b: int)
    requires ExtendedDump(rows, cpuid, cpunum, last)
    requires 0 <= a < b < |rows|
    ensures rows[a].leaf < rows[b].leaf
    ensures 0x8000_0000 <= rows[a].leaf && rows[b].leaf <= last
  {
  }

  /**
    The dump loop as written, `for (i = 0x80000000; i <= maxei; i++)` with an
    unsigned 32-bit `i`: whether it leaves within `fuel` iterations when the
    counter stands at `i`. With `maxei` = 0xFFFFFFFF the guard holds for every
    counter value and `i++` wraps to 0, so it never leaves, whatever the
    number of iterations allowed.
   */
  function AsWrittenDumpLeaves(i: bv32, maxei: bv32, fuel: nat): (leaves: bool)
    ensures maxei == 0xFFFF_FFFF ==> !leaves
    decreases fuel
  {
    if !(i <= maxei) then true
    else if fuel == 0 then false
    else AsWrittenDumpLeaves(i + 1, maxei, fuel - 1)
  }

  /**
    The part of `doamd` after the check for a zero extended bound: the
    extended feature word when leaf 0x80000001 exists, the name string when
    0x80000002 does, and the cache geometry when asked for.
   */
  method ExtendedInfo(cpuid: CpuidFn, cpunum: int, maxei: bv32, showCacheinfo: bool)
    returns (features: Option<bv32>, brand: Option<seq<Byte>>, cache: Option<CacheReport>)
    ensures features == if maxei >= 0x8000_0001 then Some(cpuid(cpunum, 0x8000_0001).edx) else None
    ensures brand == if maxei >= 0x8000_0002 then Some(BrandBytes(cpuid, cpunum)) else None
    ensures cache == if showCacheinfo then Some(DecodeCacheInfo(cpuid, cpunum, maxei)) else None
  {
    features, brand, cache := None, None, None;
    if maxei >= 0x8000_0001 {
      features := Some(cpuid(cpunum, 0x8000_0001).edx);
    }
    if maxei >= 0x8000_0002 {
      var name := AssembleBrand(cpuid, cpunum);
      brand := Some(name);
    }
    if showCacheinfo {
      cache := Some(DecodeCacheInfo(cpuid, cpunum, maxei));
    }
  }

  /**
    What `doamd` reports from the extended leaves under the bound `maxei`:
    the dump of leaves 0x80000000..maxei when asked for and `maxei` is not
    zero; leaf 0x80000001's EDX when that leaf exists; the 48 name bytes when
    leaf 0x80000002 exists; the cache geometry when asked for and `maxei` is
    not zero.
   */
  predicate ReportsExtended(r: AmdReport, cpuid: CpuidFn, cpunum: int, maxei: bv32,
                            showRegisters: bool, showCacheinfo: bool)
  {
    (if showRegisters && maxei != 0 then ExtendedDump(r.dump, cpuid, cpunum, LastLeaf(maxei))
     else r.dump == []) &&
    r.features == (if maxei >= 0x8000_0001 then Some(cpuid(cpunum, 0x8000_0001).edx) else None) &&
    r.brand == (if maxei >= 0x8000_0002 then Some(BrandBytes(cpuid, cpunum)) else None) &&
    r.cache == (if showCacheinfo && maxei != 0 then Some(DecodeCacheInfo(cpuid, cpunum, maxei)) else None)
  }

  /** With no extended leaves at all, nothing is dumped, decoded or assembled. */
  lemma NothingExtendedWithoutBound(r: AmdReport, cpuid: CpuidFn, cpunum: int,
                                    showRegisters: bool, showCacheinfo: bool)
    requires ReportsExtended(r, cpuid, cpunum, 0, showRegisters, showCacheinfo)
    ensures r.dump == [] && r.features == None && r.brand == None && r.cache == None
  {
  }

  /**
    The name string is reported exactly when the bound reaches 0x80000002,
    and then it is the 48 bytes of leaves 0x80000002 to 0x80000004, the
    last two read without a check of their own.
   */
  lemma BrandGatedOnFirstLeafOnly(r: AmdReport, cpuid: CpuidFn, cpunum: int, maxei: bv32,
                                  showRegisters: bool, showCacheinfo: bool)
    requires ReportsExtended(r, cpuid, cpunum, maxei, showRegisters, showCacheinfo)
    ensures r.brand.Some? <==> maxei >= 0x8000_0002
    ensures maxei == 0x8000_0002 ==> r.brand == Some(BrandBytes(cpuid, cpunum)) && |r.brand.value| == 48
  {
    BrandByteAt(cpuid, cpunum, 0);
  }

  /**
    With the cache report asked for, leaf 0x80000005 available and its ECX
    0x01080808, the report describes a 1 KB, 8-way L1 data cache with 8 lines
    per tag of 8 bytes.
   */
  lemma L1DataCacheScenario(r: AmdReport, cpuid: CpuidFn, cpunum: int, maxei: bv32, showRegisters: bool)
    requires ReportsExtended(r, cpuid, cpunum, maxei, showRegisters, true)
    requires maxei >= 0x8000_0005 && cpuid(cpunum, 0x8000_0005).ecx == 0x0108_0808
    ensures r.cache.Some? && r.cache.value.l1.Some?
    ensures r.cache.value.l1.value.dataCache == CacheGeometry(1, 8, 8, 8)
  {
    L1Examples();
  }

  /**
    Everything `doamd` reports, in its order: the dump of the extended
    leaves when asked and the bound read from leaf 0x80000000 is non-zero;
    the marketing name when leaf 1 is available; nothing more when the
    extended bound is zero; otherwise the feature word, the name string and
    the cache geometry as `ExtendedInfo` produces them.
   */
  method DecodeAmd(cpuid: CpuidFn, cpunum: int, maxi: int, showRegisters: bool, showCacheinfo: bool)
    returns (report: AmdReport)
    ensures report.name ==
              if maxi >= 1 then
                var eax := cpuid(cpunum, 1).eax;
                Some(AmdName(Family(eax), Model(eax), Stepping(eax)))
              else None
    ensures ReportsExtended(report, cpuid, cpunum, cpuid(cpunum, 0x8000_0000).eax, showRegisters, showCacheinfo)
  {
    var maxei := cpuid(cpunum, 0x8000_0000).eax;
    var dump := [];
    if showRegisters && maxei != 0 {
      dump := DumpExtendedRegs(cpuid, cpunum, LastLeaf(maxei));
    }

    var name := None;
    if maxi >= 1 {
      var eax := cpuid(cpunum, 1).eax;
      name := Some(AmdName(Family(eax), Model(eax), Stepping(eax)));
    }

    // no extended leaves at all
    if maxei == 0 {
      return AmdReport(dump, name, None, None, None);
    }

    var features, brand, cache := ExtendedInfo(cpuid, cpunum, maxei, showCacheinfo);
    report := AmdReport(dump, name, features, brand, cache);
  }

  /**
    `doamd` on the descriptor: the vendor becomes AMD and, when leaf 1 is
    available, stepping, model and family are the three nibbles of its EAX;
    the bounds are left alone. The report is `DecodeAmd`'s, so its name is
    the one of the stored family, model and stepping.
   */
  method DoAmd(cpuid: CpuidFn, cpunum: int, maxi: int, cpu: CpuData, showRegisters: bool, showCacheinfo: bool)
    returns (report: AmdReport)
    modifies cpu
    ensures cpu.vendor == Amd
    ensures cpu.maxi == old(cpu.maxi) && cpu.maxei == old(cpu.maxei) && cpu.maxei2 == old(cpu.maxei2)
    ensures maxi >= 1 ==>
              var eax := cpuid(cpunum, 1).eax;
              cpu.stepping == Stepping(eax) && cpu.model == Model(eax) && cpu.family == Family(eax)
    ensures maxi < 1 ==>
              cpu.stepping == old(cpu.stepping) && cpu.model == old(cpu.model) && cpu.family == old(cpu.family)
    ensures report.name == if maxi >= 1 then Some(AmdName(cpu.family, cpu.model, cpu.stepping)) else None
    ensures ReportsExtended(report, cpuid, cpunum, cpuid(cpunum, 0x8000_0000).eax, showRegisters, showCacheinfo)
  {
    cpu.vendor := Amd;
    if maxi >= 1 {
      var eax := cpuid(cpunum, 1).eax;
      cpu.stepping := Stepping(eax);
      cpu.model := Model(eax);
      cpu.family := Family(eax);
    }
    report := DecodeAmd(cpuid, cpunum, maxi, showRegisters, showCacheinfo);
  }
}
