# x86info CPUID decode, modelled in Dafny

x86info identifies x86 processors from the answers of the `cpuid`
instruction. This project models the decode core of two of its files:

- `identify.c`:
  - `get_cpu_vendor` reads leaf 0 and the two extended-leaf probes. It masks
    the standard-leaf bound to 16 bits, stores the raw extended bounds and
    classifies the vendor from the leaf-0 EBX word.
  - `identify` and `show_info` route a CPU descriptor to the one per-vendor
    routine.
- `cpuid-amd.c`:
  - `doamd` sets the vendor to AMD and extracts stepping, model and family
    from leaf 1. It resolves the marketing name through the nested family,
    model and stepping table, and gates every extended decode on the bound
    `maxei`. It assembles the 48-byte processor name string with a walking
    pointer.
  - `decode_AMD_cacheinfo` unpacks the TLB, L1 and L2 geometry from leaves
    0x80000005 and 0x80000006.
  - `dump_extended_AMD_regs` walks the extended leaves.

The `cpuid` primitive is a parameter, `CpuidFn`: a fixed function from a CPU
number and a leaf to four 32-bit registers. What the C code prints becomes
returned values: the marketing name, the feature word handed on, the 48
name bytes, geometry records and the dumped rows (`AmdReport`). The
descriptor `struct cpudata` is a class, `X86Info.CpuData`, whose fields the
methods update in place. Registers are `bv32`, so every shift and mask has
its C meaning. Leaf numbers are integers in 0..2^32-1 (`Leaf`).

Modules, one per part of the code:

- `X86Info`: registers, leaves, vendors and the descriptor class.
- `Identify`: `identify.c`.
- `AmdNames`: signature fields and the name table.
- `AmdCache`: cache and TLB geometry.
- `AmdBrand`: the name string.
- `CpuidAmd`: `doamd` and the dump.

Facts of the code that the model keeps as written:

- The vendor is classified from leaf 0's EBX word alone (identify.c:24-50);
  EDX and ECX are not read.
- The outer `switch (cpu->family)` has no default (cpuid-amd.c:73-189), so a
  family other than 4, 5 or 6 prints nothing between the brackets: the name
  is empty.
- The name string is assembled as soon as `maxei >= 0x80000002`
  (cpuid-amd.c:203). Leaves 0x80000003 and 0x80000004 are then read without a
  check of their own (cpuid-amd.c:208-209).
- Only the first 48 bytes of the 49-byte name buffer are written
  (cpuid-amd.c:205-218); the 49th is never set.
- The extended bounds `maxei` and `maxei2` are stored exactly as leaves
  0x80000000 and 0xC0000000 return them (identify.c:18-22), and `doamd` skips
  the extended decodes only when `maxei` is zero (cpuid-amd.c:195-196).
- The names printed for family 6 models 1 and 2 open a parenthesis they never
  close: "Athlon (0.25um" and "Athlon (0.18um" (cpuid-amd.c:147, 158).

## Model

| member | source | states |
|---|---|---|
| Identify.MaxLeaf | identify.c:14-16 | the stored standard-leaf bound is at most 0xffff and is exactly the low word of leaf 0's EAX (the high word put back restores EAX) |
| Identify.VendorOf | identify.c:24-50 | a recognised EBX word names a real vendor whose signature table contains it; None exactly when no vendor's table contains the word |
| Identify.SignaturesDisjoint | identify.c:24-46 | no signature word belongs to two vendors, and each table word is classified as its own vendor |
| Identify.EveryVendorRecognised | identify.c:25-46 | every vendor tag but Unknown is produced by some EBX word; RiSE, and only RiSE, has two signature words |
| Identify.GetCpuVendor | identify.c:10-51 | maxi is leaf 0's EAX masked to 16 bits; maxei and maxei2 are the unmodified EAX of probes 0x80000000 and 0xC0000000, stored whatever the vendor; the vendor comes from leaf 0's EBX alone and is left unchanged for an unknown word; family, model and stepping are untouched |
| Identify.Identify | identify.c:53-78 | a routine is called exactly when the vendor is known, and it is that vendor's routine |
| Identify.ShowInfo | identify.c:80-117 | nothing is shown when silent; otherwise a routine is called exactly when the vendor is known, and it is that vendor's routine |
| Identify.DispatchDisjoint | identify.c:53-117 | two different vendors never reach the same identification or display routine |
| AmdNames.Stepping | cpuid-amd.c:69 | the stepping is below 16 |
| AmdNames.Model | cpuid-amd.c:70 | the model is below 16 |
| AmdNames.Family | cpuid-amd.c:71 | the family is below 16 |
| AmdNames.SignatureRebuildsLow12Bits | cpuid-amd.c:69-71 | family, model and stepping put back in place give bits 0-11 of leaf-1 EAX: the three fields are its three low nibbles |
| AmdNames.SignatureDependsOnlyOnLow12Bits | cpuid-amd.c:69-71 | two EAX values that agree on bits 0-11 give the same family, model and stepping |
| AmdNames.AmdName | cpuid-amd.c:73-189 | the nested family, model and stepping switch as written; the name is empty if and only if the family is not 4, 5 or 6 |
| AmdNames.AmdNameIsTableLookup | cpuid-amd.c:74-190 | the nested switch is a total lookup: a known (family, model) pair of families 4-6 gets its table name plus its stepping refinement, any other model there gets "Unknown CPU", and every other family gets the empty name |
| AmdNames.FamilyIsTableLookup | cpuid-amd.c:75-139 | the table lookup for families 4 and 5 |
| AmdNames.AthlonFamilyIsTableLookup | cpuid-amd.c:141-189 | the table lookup for family 6, including the revision suffixes of models 1-3 |
| AmdNames.K6_2CxtCore | cpuid-amd.c:121-125 | family 5 model 8 is "K6-2 (CXT core)" if and only if the stepping is at least 8, and plain "K6-2" below |
| AmdNames.AthlonRevisionSuffixes | cpuid-amd.c:146-184 | family 6 models 1, 2 and 3 get a revision suffix if and only if the stepping is 1-2, 1-2 and 0-3 respectively |
| AmdNames.ThunderbirdA4A7 | cpuid-amd.c:168-179 | leaf-1 EAX 0x632 (family 6, model 3, stepping 2) is named "Thunderbird Rev A4-A7" |
| AmdCache.DataTlb | cpuid-amd.c:25 | the data TLB's associativity and entry count each fit a byte, and put back in bits 24-31 and 16-23 above EBX's low word they rebuild EBX |
| AmdCache.InstrTlb | cpuid-amd.c:26 | the instruction TLB's associativity and entry count each fit a byte, and put back in bits 8-15 and 0-7 below EBX's high word they rebuild EBX |
| AmdCache.TlbFieldsAreBytes | cpuid-amd.c:25-26 | the four TLB fields of EBX each fit a byte and reassemble to EBX |
| AmdCache.TlbRoundTrip | cpuid-amd.c:25-26 | TLB geometries that fit the byte layout decode back from their encoding |
| AmdCache.DecodeL1 | cpuid-amd.c:27-30 | the four L1 fields each fit a byte and reassemble to the register |
| AmdCache.L1RoundTrip | cpuid-amd.c:27-30 | an L1 geometry that fits the byte layout decodes back from its encoding |
| AmdCache.DecodeL2 | cpuid-amd.c:36-37 | the L2 size is below 65536, associativity and lines per tag below 16, the line size below 256, and together they reassemble to ECX |
| AmdCache.L2RoundTrip | cpuid-amd.c:36-37 | an L2 geometry that fits the 16/4/4/8-bit layout decodes back from its encoding |
| AmdCache.L2FieldsDisjoint | cpuid-amd.c:36-37 | each L2 field, shifted back, is exactly its own bits of ECX: bits 16-31, 12-15, 8-11 and 0-7 |
| AmdCache.L1Examples | cpuid-amd.c:27-28 | 0x02040708 is size 2, associativity 4, 7 lines per tag, line size 8; 0x01080808 is 1, 8, 8, 8 |
| AmdCache.DecodeCacheInfo | cpuid-amd.c:18-40 | the TLB/L1 part is present if and only if maxei reaches 0x80000005 and the L2 part if and only if it reaches 0x80000006; each decoded part fits its layout and reassembles the registers it came from |
| AmdBrand.ByteOf | cpuid-amd.c:211-218 | the byte stored for `reg >> (8 * i)` is that shifted register truncated to its low 8 bits, as the `char` store does |
| AmdBrand.RegBytesRoundTrip | cpuid-amd.c:211-218 | a register's four bytes, least significant first, rebuild the register |
| AmdBrand.FromBytesRoundTrip | cpuid-amd.c:211-218 | four bytes packed little-endian come back in the same order |
| AmdBrand.LeafByteAt | cpuid-amd.c:209-218 | byte 4q + i of a leaf's 16 bytes is byte i of register q, in the order EAX, EBX, ECX, EDX |
| AmdBrand.LeafRegisterSlice | cpuid-amd.c:211-218 | bytes 4q to 4q + 3 of a leaf are register q's bytes, least significant first |
| AmdBrand.BrandByteInLeaf | cpuid-amd.c:208-219 | name byte k is byte k mod 16 of leaf 0x80000002 + k / 16 |
| AmdBrand.BrandBytesBlock | cpuid-amd.c:208-219 | the 48 name bytes are the 16 bytes of leaves 0x80000002, 0x80000003 and 0x80000004 in ascending order |
| AmdBrand.BrandByteAt | cpuid-amd.c:207-219 | the concatenation of the three leaves has 48 bytes, and byte k is byte k mod 4 of register (k / 4) mod 4 of leaf 0x80000002 + k / 16 |
| AmdBrand.BrandBytesByPosition | cpuid-amd.c:207-219 | 48 bytes each taken from that position are the concatenation of the three leaves |
| AmdBrand.AmdPrefix | cpuid-amd.c:207-219 | EAX 0x20444D41 of leaf 0x80000002 makes the name start with 'A', 'M', 'D', ' ' |
| AmdBrand.BrandIndex | cpuid-amd.c:207-219 | the walking pointer's byte k in leaf block b is byte k mod 4 of register (k / 4) mod 4 of that block |
| AmdBrand.StoreRegister | cpuid-amd.c:211-212 | one inner loop stores the register's bytes, least significant first, at cp..cp+3, advances the pointer by 4 and leaves the bytes before cp and from cp + 4 on alone |
| AmdBrand.StoreLeaf | cpuid-amd.c:209-218 | one leaf's four inner loops store byte i of register q at cp + 4q + i, advance the pointer by 16 and leave the bytes before cp and from cp + 16 on alone |
| AmdBrand.AssembleBrand | cpuid-amd.c:203-219 | exactly 48 bytes are written, byte k from byte k mod 4 of register (k / 4) mod 4 of leaf 0x80000002 + k / 16, and they are the three leaves' bytes in order |
| CpuidAmd.DumpExtendedRegs | cpuid-amd.c:43-54 | the dump has one row per leaf from 0x80000000 to maxei inclusive, in increasing order, each with the registers that leaf returns, and nothing when maxei is below 0x80000000 |
| CpuidAmd.ExtendedDumpIncreasing | cpuid-amd.c:49-52 | dumped leaves are strictly increasing, so each is queried once, and all lie within 0x80000000..maxei |
| CpuidAmd.AsWrittenDumpLeaves | cpuid-amd.c:46-49 | the loop as written, with its `i <= maxei` guard and wrapping 32-bit `i++`: with maxei = 0xFFFFFFFF it never leaves, however many iterations are allowed |
| CpuidAmd.ExtendedInfo | cpuid-amd.c:198-224 | features are leaf 0x80000001's EDX if and only if maxei reaches 0x80000001; the name bytes are reported if and only if maxei reaches 0x80000002; the cache report is present if and only if it was asked for |
| CpuidAmd.NothingExtendedWithoutBound | cpuid-amd.c:194-196 | with maxei = 0 nothing is dumped and no feature, name-string or cache decode runs |
| CpuidAmd.BrandGatedOnFirstLeafOnly | cpuid-amd.c:203-208 | the name string is reported if and only if maxei reaches 0x80000002, and then it is all 48 bytes of three leaves even when maxei is exactly 0x80000002 |
| CpuidAmd.L1DataCacheScenario | cpuid-amd.c:22-28 | with the cache report asked for, leaf 0x80000005 present and its ECX 0x01080808, the L1 data cache is 1 KB, 8-way, 8 lines per tag, 8-byte lines |
| CpuidAmd.DecodeAmd | cpuid-amd.c:56-225 | the marketing name is reported if and only if leaf 1 is available, as the table name of leaf 1's nibbles; the dump runs if and only if it was asked for and maxei is non-zero; features, name bytes and cache are gated on maxei as above |
| CpuidAmd.DoAmd | cpuid-amd.c:56-71 | the vendor becomes AMD; stepping, model and family become leaf 1's nibbles when maxi >= 1 and are otherwise unchanged; the bounds are unchanged; the reported name is that of the stored family, model and stepping; the report is gated as DecodeAmd's |

## Left out

- The `cpuid` instruction and CPU pinning are inline assembly and operating-system calls. They are the parameter `cpuid`, a deterministic function of the CPU number and the leaf.
- The `printf` text and layout are left out. What is printed is returned as values; the `%lx` and `%ld` choice is presentation only.
- `decode_feature_flags` and the per-vendor `Identify_*` and `display_*` routines are defined in files that are not part of this model. The feature word handed on is reported, and the routine called is a tag (`IdentifyRoutine`, `DisplayRoutine`).
- The globals `show_registers`, `show_cacheinfo` and `silent` are boolean parameters.
- Iterating over several logical CPUs is the caller's concern.
- Parallelism is the caller's concern.
- The "Unknown vendor" diagnostic is not modelled; only its effect is, an early return that leaves the vendor as it was.
- The 49th byte of the name buffer is never written. Only the 48 written bytes are modelled.
- C `char` signedness is not modelled. Each name byte is an unsigned 8-bit value (`Byte`, a `bv32` below 256).
- The width of `unsigned long` on 64-bit hosts is not modelled: registers are 32 bits wide.
- The vendor tag of a descriptor that was never classified is `Vendor.Unknown`, rather than whatever integer the field held.
- AmdBrand.StoreLeaf: the source writes out the four inner loops one after another. The model runs the same loop body once per register, in the order EAX, EBX, ECX, EDX, so each register gets the same stores in the same order.
- CpuidAmd.DoAmd: stepping, model and family are stored before the report is built. In the source the extended dump comes first. The dump reads no descriptor field, so the stored values and the report are the same.
- CpuidAmd.DecodeAmd: the dump is the corrected walk of `DumpExtendedRegs`. With `show_registers` set and leaf 0x80000000 returning EAX = 0xFFFFFFFF, the source loops forever, never returns from `doamd` and never stores stepping, model or family. The model returns instead, with a dump of 2^31 rows (see Findings).

## Findings

| source | as written | input that shows it | evidently intended | confidence | as-written member | corrected member |
|---|---|---|---|---|---|---|
| cpuid-amd.c:46-49 | `for (i = 0x80000000; i <= maxei; i++)` with an `unsigned int` counter | leaf 0x80000000 returning EAX = 0xFFFFFFFF: `i <= maxei` holds for every 32-bit `i`, and `i++` wraps from 0xFFFFFFFF to 0, so the dump never ends | dump each leaf from 0x80000000 to maxei once, then stop | not executed | CpuidAmd.AsWrittenDumpLeaves | CpuidAmd.DumpExtendedRegs |
