/**
  The family/model/stepping signature of leaf 1 and AMD's marketing-name
  table (cpuid-amd.c, `doamd`): three 4-bit fields of EAX and a nested
  family -> model -> stepping switch.
 */
module AmdNames {

  /** Bits 0-3 of leaf-1 EAX. */
  function Stepping(eax: bv32): (s: nat)
    ensures s < 16
  {
    (eax & 0xf) as nat
  }

  /** Bits 4-7 of leaf-1 EAX. */
  function Model(eax: bv32): (m: nat)
    ensures m < 16
  {
    ((eax >> 4) & 0xf) as nat
  }

  /** Bits 8-11 of leaf-1 EAX. */
  function Family(eax: bv32): (f: nat)
    ensures f < 16
  {
    ((eax >> 8) & 0xf) as nat
  }

  /** The three fields put back in place rebuild bits 0-11 of EAX. */
  lemma SignatureRebuildsLow12Bits(eax: bv32)
    ensures Family(eax) * 256 + Model(eax) * 16 + Stepping(eax) == (eax & 0xfff) as nat
  {
    var lo := eax & 0xfff;
    assert Family(eax) == (lo >> 8) as nat by {
      assert (eax >> 8) & 0xf == lo >> 8;
    }
    assert Model(eax) == ((lo >> 4) & 0xf) as nat by {
      assert (eax >> 4) & 0xf == (lo >> 4) & 0xf;
    }
    assert Stepping(eax) == (lo & 0xf) as nat by {
      assert eax & 0xf == lo & 0xf;
    }
    TwelveBitValue(lo);
  }

  /** The signature depends on bits 0-11 of EAX and on nothing else. */
  lemma SignatureDependsOnlyOnLow12Bits(eax: bv32, eax': bv32)
    requires eax & 0xfff == eax' & 0xfff
    ensures Family(eax) == Family(eax') && Model(eax) == Model(eax') && Stepping(eax) == Stepping(eax')
  {
  }

  /** The value of a 12-bit word, nibble by nibble. */
  lemma TwelveBitValue(x: bv32)
    requires x <= 0xfff
    ensures x as nat == (x >> 8) as nat * 256 + ((x >> 4) & 0xf) as nat * 16 + (x & 0xf) as nat
  {
  }

  /**
    The bracketed name `doamd` prints after "Family: .. Model: ..": the nested
    switch, with no default for the family, so a family other than 4, 5 or 6
    gives the empty name.
   */
  function AmdName(family: nat, model: nat, stepping: nat): (name: string)
    ensures name == "" <==> family !in {4, 5, 6}
  {
    match family
    case 4 =>
      (match model
       case 3 => "80486DX2"
       case 7 => "80486DX2WB"
       case 8 => "80486DX4"
       case 9 => "80486DX4WB"
       case 0xe => "5x86"
       case 0xf => "5x86WB"
       case _ => "Unknown CPU")
    case 5 =>
      (match model
       case 0 => "SSA5 (PR75/PR90/PR100)"
       case 1 => "K5 (PR120/PR133)"
       case 2 => "K5 (PR166)"
       case 3 => "K5 (PR200)"
       case 6 => "K6 (0.30 um)"
       case 7 => "K6 (0.25 um)"
       case 8 => "K6-2" + (if stepping >= 8 then " (CXT core)" else "")
       case 9 => "K6-3"
       case 12 => "K6-2+ (0.18um)"
       case 13 => "K6-3+ (0.18um)"
       case _ => "Unknown CPU")
    case 6 =>
      (match model
       case 0 => "K7 ES"
       case 1 =>
         "Athlon (0.25um" +
         (match stepping
          case 1 => " Rev C1"
          case 2 => " Rev C2"
          case _ => "")
       case 2 =>
         "Athlon (0.18um" +
         (match stepping
          case 1 => " Rev A1"
          case 2 => " Rev A2"
          case _ => "")
       case 3 =>
         "Thunderbird" +
         (match stepping
          case 0 => " Rev A1"
          case 1 => " Rev A2"
          case 2 => " Rev A4-A7"
          case 3 => " Rev B0"
          case _ => "")
       case _ => "Unknown CPU")
    case _ => ""
  }

  /** The name of each known (family, model) pair before any stepping refinement. */
  const BaseNames: map<(nat, nat), string> := map[
    (4, 3) := "80486DX2", (4, 7) := "80486DX2WB", (4, 8) := "80486DX4",
    (4, 9) := "80486DX4WB", (4, 14) := "5x86", (4, 15) := "5x86WB",
    (5, 0) := "SSA5 (PR75/PR90/PR100)", (5, 1) := "K5 (PR120/PR133)",
    (5, 2) := "K5 (PR166)", (5, 3) := "K5 (PR200)", (5, 6) := "K6 (0.30 um)",
    (5, 7) := "K6 (0.25 um)", (5, 8) := "K6-2", (5, 9) := "K6-3",
    (5, 12) := "K6-2+ (0.18um)", (5, 13) := "K6-3+ (0.18um)",
    (6, 0) := "K7 ES", (6, 1) := "Athlon (0.25um", (6, 2) := "Athlon (0.18um",
    (6, 3) := "Thunderbird"]

  /** The revision suffixes of the Athlon and Thunderbird models, by (model, stepping). */
  const Revisions: map<(nat, nat), string> := map[
    (1, 1) := " Rev C1", (1, 2) := " Rev C2",
    (2, 1) := " Rev A1", (2, 2) := " Rev A2",
    (3, 0) := " Rev A1", (3, 1) := " Rev A2", (3, 2) := " Rev A4-A7", (3, 3) := " Rev B0"]

  /** The stepping refinement a known (family, model) pair receives. */
  function Suffix(family: nat, model: nat, stepping: nat): string
  {
    if family == 5 && model == 8 && stepping >= 8 then " (CXT core)"
    else if family == 6 && (model, stepping) in Revisions then Revisions[(model, stepping)]
    else ""
  }

  /**
    The nested switch is the lookup table: a known (family, model) pair gets
    its table name and refinement, any other model of families 4 to 6 gets
    "Unknown CPU", and every other family the empty string.
   */
  lemma {:induction false} AmdNameIsTableLookup(family: nat, model: nat, stepping: nat)
    ensures AmdName(family, model, stepping) ==
              if family !in {4, 5, 6} then ""
              else if (family, model) in BaseNames then BaseNames[(family, model)] + Suffix(family, model, stepping)
              else "Unknown CPU"
  {
    match family
    case 4 => FamilyIsTableLookup(4, model, stepping);
    case 5 => FamilyIsTableLookup(5, model, stepping);
    case 6 => AthlonFamilyIsTableLookup(model, stepping);
    case _ =>
  }

  /** `AmdNameIsTableLookup` for families 4 and 5. */
  lemma FamilyIsTableLookup(family: nat, model: nat, stepping: nat)
    requires family == 4 || family == 5
    ensures AmdName(family, model, stepping) ==
              if (family, model) in BaseNames then BaseNames[(family, model)] + Suffix(family, model, stepping)
              else "Unknown CPU"
  {
  }

  /** `AmdNameIsTableLookup` for family 6, where three models carry revision suffixes. */
  lemma AthlonFamilyIsTableLookup(model: nat, stepping: nat)
    ensures AmdName(6, model, stepping) ==
              if (6, model) in BaseNames then BaseNames[(6, model)] + Suffix(6, model, stepping)
              else "Unknown CPU"
  {
    if model in {1, 2, 3} && (model, stepping) !in Revisions {
      assert stepping !in {0, 1, 2, 3} || (model != 3 && stepping !in {1, 2});
    }
  }

  /** Family 5 model 8 is a K6-2, with the CXT core from stepping 8 on. */
  lemma K6_2CxtCore(stepping: nat)
    ensures AmdName(5, 8, stepping) == "K6-2 (CXT core)" <==> stepping >= 8
    ensures stepping < 8 ==> AmdName(5, 8, stepping) == "K6-2"
  {
  }

  /**
    Family 6 models 1, 2 and 3 carry a revision suffix for the listed
    steppings only (1-2, 1-2 and 0-3); any other stepping gets the bare name.
   */
  lemma AthlonRevisionSuffixes(model: nat, stepping: nat)
    requires model in {1, 2, 3}
    ensures AmdName(6, model, stepping) == BaseNames[(6, model)] + Suffix(6, model, stepping)
    ensures AmdName(6, model, stepping) != BaseNames[(6, model)] <==>
              (if model == 3 then stepping <= 3 else 1 <= stepping <= 2)
  {
    AmdNameIsTableLookup(6, model, stepping);
  }

  /** Family 6, model 3, stepping 2 is a Thunderbird of revisions A4 to A7. */
  lemma ThunderbirdA4A7()
    ensures AmdName(Family(0x632), Model(0x632), Stepping(0x632)) == "Thunderbird Rev A4-A7"
  {
  }
}
