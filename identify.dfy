/**
  Vendor identification and vendor dispatch (identify.c): reading the leaf
  bounds, classifying the vendor from the leaf-0 EBX word, and routing a
  descriptor to the one per-vendor identification or display routine.
 */
module Identify {
  import opened X86Info

  /**
    The standard-leaf bound as stored: leaf 0's EAX with its high word, which
    some Cyrix parts fill with garbage, cleared and its low word kept.
   */
  function MaxLeaf(eax: bv32): (r: bv32)
    ensures r <= 0xffff
    ensures ((eax >> 16) << 16) | r == eax
  {
    eax & 0xffff
  }

  /** The vendor signature words, one set per vendor: the reference table. */
  function Signatures(v: Vendor): set<bv32>
  {
    match v
    case Intel => {0x756e_6547}    // "Genu"
    case Amd => {0x6874_7541}      // "Auth"
    case Cyrix => {0x6972_7943}    // "Cyri"
    case Centaur => {0x746e_6543}  // "Cent"
    case NatSemi => {0x646f_6547}  // "Geod"
    case Rise => {0x5269_7365, 0x6573_6952}
    case SiS => {0x2053_6953}      // "SiS "
    case Unknown => {}
  }

  /**
    The `switch (vendor)` of `get_cpu_vendor`: the vendor a leaf-0 EBX word
    names, or None when it is none of the table's constants.
   */
  function VendorOf(ebx: bv32): (r: Option<Vendor>)
    ensures r.Some? ==> r.value != Unknown && ebx in Signatures(r.value)
    ensures r.None? <==> forall v :: ebx !in Signatures(v)
  {
    if ebx == 0x756e_6547 then Some(Intel)
    else if ebx == 0x6874_7541 then Some(Amd)
    else if ebx == 0x6972_7943 then Some(Cyrix)
    else if ebx == 0x746e_6543 then Some(Centaur)
    else if ebx == 0x646f_6547 then Some(NatSemi)
    else if ebx == 0x5269_7365 || ebx == 0x6573_6952 then Some(Rise)
    else if ebx == 0x2053_6953 then Some(SiS)
    else None
  }

  /** Each signature word names exactly one vendor: the table has no overlaps. */
  lemma SignaturesDisjoint(v: Vendor, w: Vendor, ebx: bv32)
    requires ebx in Signatures(v) && ebx in Signatures(w)
    ensures v == w && VendorOf(ebx) == Some(v)
  {
  }

  /** Every vendor but Unknown has a signature, and Rise has exactly two. */
  lemma EveryVendorRecognised(v: Vendor)
    requires v != Unknown
    ensures exists ebx :: VendorOf(ebx) == Some(v)
    ensures v == Rise <==> |Signatures(v)| == 2
  {
    match v
    case Intel => assert VendorOf(0x756e_6547) == Some(v);
    case Amd => assert VendorOf(0x6874_7541) == Some(v);
    case Cyrix => assert VendorOf(0x6972_7943) == Some(v);
    case Centaur => assert VendorOf(0x746e_6543) == Some(v);
    case NatSemi => assert VendorOf(0x646f_6547) == Some(v);
    case Rise => assert VendorOf(0x5269_7365) == Some(v);
    case SiS => assert VendorOf(0x2053_6953) == Some(v);
  }

  /**
    `get_cpu_vendor`: stores the standard-leaf bound masked to 16 bits and the
    two raw extended bounds, then the vendor when leaf 0's EBX is a known
    signature; an unknown signature returns early and leaves the vendor as it was.
   */
  method GetCpuVendor(cpu: CpuData, cpuid: CpuidFn)
    modifies cpu
    ensures cpu.maxi == MaxLeaf(cpuid(cpu.number, 0).eax)
    ensures cpu.maxei == cpuid(cpu.number, 0x8000_0000).eax
    ensures cpu.maxei2 == cpuid(cpu.number, 0xC000_0000).eax
    ensures cpu.vendor == match VendorOf(cpuid(cpu.number, 0).ebx)
                          case Some(v) => v
                          case None => old(cpu.vendor)
    ensures cpu.family == old(cpu.family) && cpu.model == old(cpu.model)
    ensures cpu.stepping == old(cpu.stepping)
  {
    var leaf0 := cpuid(cpu.number, 0);
    var maxi, vendor := leaf0.eax, leaf0.ebx;
    maxi := MaxLeaf(maxi);
    cpu.maxi := maxi;

    var maxei := cpuid(cpu.number, 0x8000_0000).eax;
    cpu.maxei := maxei;

    maxei := cpuid(cpu.number, 0xC000_0000).eax;
    cpu.maxei2 := maxei;

    match VendorOf(vendor)
    case Some(v) =>
      cpu.vendor := v;
    case None =>
      return;  // "Unknown vendor"
  }

  /** The per-vendor identification routines `identify` can call. */
  datatype IdentifyRoutine =
    | IdentifyIntel | IdentifyAmd | IdentifyCyrix | IdentifyCentaur
    | IdentifyNatSemi | IdentifyRise | IdentifySiS

  /** The per-vendor display routines `show_info` can call. */
  datatype DisplayRoutine =
    | DisplayAmd | DisplayCyrix | DisplayCentaur | DisplayIntel
    | DisplayNatSemi | DisplayRise | DisplaySiS

  /** The vendor each identification routine is written for. */
  function IdentifiedVendor(r: IdentifyRoutine): Vendor
  {
    match r
    case IdentifyIntel => Intel
    case IdentifyAmd => Amd
    case IdentifyCyrix => Cyrix
    case IdentifyCentaur => Centaur
    case IdentifyNatSemi => NatSemi
    case IdentifyRise => Rise
    case IdentifySiS => SiS
  }

  /** The vendor each display routine is written for. */
  function DisplayedVendor(r: DisplayRoutine): Vendor
  {
    match r
    case DisplayAmd => Amd
    case DisplayCyrix => Cyrix
    case DisplayCentaur => Centaur
    case DisplayIntel => Intel
    case DisplayNatSemi => NatSemi
    case DisplayRise => Rise
    case DisplaySiS => SiS
  }

  /**
    `identify`: the routine called for a descriptor's vendor, None when the
    switch falls through.
   */
  function Identify(v: Vendor): (r: Option<IdentifyRoutine>)
    ensures r.Some? <==> v != Unknown
    ensures r.Some? ==> IdentifiedVendor(r.value) == v
  {
    match v
    case Intel => Some(IdentifyIntel)
    case Amd => Some(IdentifyAmd)
    case Cyrix => Some(IdentifyCyrix)
    case Centaur => Some(IdentifyCentaur)
    case NatSemi => Some(IdentifyNatSemi)
    case Rise => Some(IdentifyRise)
    case SiS => Some(IdentifySiS)
    case Unknown => None
  }

  /**
    `show_info`: the display routine called for a descriptor's vendor; nothing
    when `silent` is set or the vendor is unknown.
   */
  function ShowInfo(v: Vendor, silent: bool): (r: Option<DisplayRoutine>)
    ensures silent ==> r.None?
    ensures !silent ==> (r.Some? <==> v != Unknown)
    ensures r.Some? ==> DisplayedVendor(r.value) == v
  {
    if silent then None
    else
      match v
      case Amd => Some(DisplayAmd)
      case Cyrix => Some(DisplayCyrix)
      case Centaur => Some(DisplayCentaur)
      case Intel => Some(DisplayIntel)
      case NatSemi => Some(DisplayNatSemi)
      case Rise => Some(DisplayRise)
      case SiS => Some(DisplaySiS)
      case Unknown => None
  }

  /** No two vendors share an identification or a display routine. */
  lemma DispatchDisjoint(v: Vendor, w: Vendor, silent: bool)
    requires v != w
    ensures Identify(v).Some? ==> Identify(v) != Identify(w)
    ensures ShowInfo(v, silent).Some? ==> ShowInfo(v, silent) != ShowInfo(w, silent)
  {
  }
}
