/**
  The data shared by x86info's identification code: the four registers a
  CPUID query returns, the query itself (an abstract, deterministic function
  of the logical CPU number and the leaf), the vendor tag and the per-CPU
  descriptor `struct cpudata` that the decoders fill in place.
 */
module X86Info {

  datatype Option<+T> = None | Some(value: T)

  /** The four 32-bit registers one CPUID leaf returns. */
  datatype Regs = Regs(eax: bv32, ebx: bv32, ecx: bv32, edx: bv32)

  /** A CPUID leaf number: an unsigned 32-bit value. */
  type Leaf = l: int | 0 <= l < 0x1_0000_0000

  /**
    The `cpuid(cpunum, leaf, &eax, &ebx, &ecx, &edx)` primitive: which CPU is
    queried and how it is pinned is outside this model; for a given CPU number
    and leaf the answer is fixed.
   */
  type CpuidFn = (int, Leaf) -> Regs

  /** The `VENDOR_*` tags; `Unknown` is the value of a descriptor no vendor was recognised for. */
  datatype Vendor = Unknown | Intel | Amd | Cyrix | Centaur | NatSemi | Rise | SiS

  /** One `struct cpudata`: the descriptor of one logical CPU. */
  class CpuData {
    const number: int
    var vendor: Vendor
    var maxi: bv32
    var maxei: bv32
    var maxei2: bv32
    var family: nat
    var model: nat
    var stepping: nat

    /** A fresh descriptor: only the CPU number is known. */
    constructor (number: int)
      ensures this.number == number && vendor == Unknown
      ensures maxi == 0 && maxei == 0 && maxei2 == 0
      ensures family == 0 && model == 0 && stepping == 0
    {
      this.number := number;
      vendor := Unknown;
      maxi, maxei, maxei2 := 0, 0, 0;
      family, model, stepping := 0, 0, 0;
    }
  }
}
