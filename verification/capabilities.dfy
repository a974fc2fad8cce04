/** What a shader model record allows: whether it is valid (for DXIL), the
    DXIL and validator versions it needs, whether a stage may take
    derivatives under it, and record equality. */
module Capabilities {
  import opened ShaderKinds
  import opened ProfileNames
  import opened ShaderModels
  import opened Lookup

  /** The kinds a record may carry (the assertion at the head of IsValid):
      a profile stage or Invalid. */
  predicate RecordKind(k: Kind) {
    ProfileStage(k) || k == Invalid
  }

  /** ShaderModel::IsValid: everything but the sentinel is valid. */
  predicate IsValid(sm: ShaderModel)
    requires RecordKind(sm.kind)
    ensures IsValid(sm) <==> ProfileStage(sm.kind)
  {
    sm.kind != Invalid
  }

  /** ShaderModel::IsValidForDxil: a valid version-6 record whose minor is
      0 to 8, or the offline minor on a library. */
  predicate IsValidForDxil(sm: ShaderModel)
    requires RecordKind(sm.kind)
    ensures IsValidForDxil(sm) ==> IsValid(sm) && sm.major == 6
    ensures IsValidForDxil(sm) <==> ProfileStage(sm.kind) && Admissible(sm.kind, sm.major, sm.minor) && sm.major == 6
  {
    if !IsValid(sm) then false
    else if sm.major == 6 then
      if sm.minor <= 8 then true
      else if sm.minor == OfflineMinor then sm.kind == Library
      else false
    else false
  }

  /** The highest DXIL version: what the offline library profile reports. */
  const HighestDxilVersion: (nat, nat) := (1, 8)

  /** The DXIL version a record needs: 1.minor, and the highest DXIL
      version for the offline library profile, which targets any. */
  function DxilVersion(sm: ShaderModel): (v: (nat, nat))
    ensures v.0 == 1
    ensures sm.minor <= 8 || sm.minor == OfflineMinor ==> VersionAtMost(v, HighestDxilVersion)
  {
    if sm.minor == OfflineMinor then HighestDxilVersion else (1, sm.minor)
  }

  /** The oldest validator that accepts a record: 1.minor, and 0.0 for the
      offline library profile, which no validator has to accept. */
  function ValidatorVersion(sm: ShaderModel): (v: (nat, nat))
    ensures v == (0, 0) <==> sm.minor == OfflineMinor
    ensures v != (0, 0) ==> v.0 == 1
  {
    if sm.minor == OfflineMinor then (0, 0) else (1, sm.minor)
  }

  /** ShaderModel::GetDxilVersion: major 1; the minor follows the record's
      minor, and the offline minor reports the highest DXIL version. */
  method GetDxilVersion(sm: ShaderModel) returns (dxilMajor: Unsigned, dxilMinor: Unsigned)
    requires RecordKind(sm.kind) && IsValidForDxil(sm)
    ensures (dxilMajor, dxilMinor) == DxilVersion(sm)
  {
    dxilMajor := 1;
    if sm.minor <= 8 {
      dxilMinor := sm.minor;
    } else if sm.minor == OfflineMinor {
      dxilMinor := 8;
    } else {
      assert false;
    }
  }

  /** ShaderModel::GetMinValidatorVersion: 1.minor, and 0.0 for the offline
      minor. */
  method GetMinValidatorVersion(sm: ShaderModel) returns (valMajor: Unsigned, valMinor: Unsigned)
    requires RecordKind(sm.kind) && IsValidForDxil(sm)
    ensures (valMajor, valMinor) == ValidatorVersion(sm)
  {
    valMajor := 1;
    if sm.minor <= 8 {
      valMinor := sm.minor;
    } else if sm.minor == OfflineMinor {
      valMajor := 0;
      valMinor := 0;
    } else {
      assert false;
    }
  }

  /** Every record in the table has a kind IsValid accepts; only the
      sentinel is invalid; and exactly the version-6 profiles are valid for
      DXIL. */
  lemma ValidityOverTable(i: nat)
    requires i < |Table|
    ensures RecordKind(Table[i].kind)
    ensures IsValid(Table[i]) <==> i != GetInvalid()
    ensures IsValidForDxil(Table[i]) <==> i != GetInvalid() && Table[i].major == 6
  {
    TableShape();
    ProfilesAreCanonical();
  }

  /** For every record valid for DXIL, the validator version is never above
      the DXIL version, and the two agree except on the offline profile. */
  lemma ValidatorNotAboveDxil(sm: ShaderModel)
    requires RecordKind(sm.kind) && IsValidForDxil(sm)
    ensures VersionAtMost(ValidatorVersion(sm), DxilVersion(sm))
    ensures ValidatorVersion(sm) == DxilVersion(sm) <==> sm.minor != OfflineMinor
    ensures sm.minor != OfflineMinor ==> DxilVersion(sm) == (1, sm.minor)
  {
  }

  /** The offline library profile (`lib_6_x`, slot 82) reports the highest
      DXIL version: no record valid for DXIL needs a newer one. */
  lemma OfflineProfileHasHighestDxil(sm: ShaderModel)
    requires RecordKind(sm.kind) && IsValidForDxil(sm)
    ensures VersionAtMost(DxilVersion(sm), DxilVersion(Table[82]))
    ensures Table[82].name == "lib_6_x" && DxilVersion(Table[82]) == HighestDxilVersion
    ensures ValidatorVersion(Table[82]) == (0, 0)
  {
    TableShape();
    assert Table[82] == LibraryModels[8];
  }

  /** Shader model 6.6 or later. IsSM66Plus is declared in the header, which
      is not part of this model; it is taken to compare (major, minor) with
      (6, 6). */
  predicate IsSM66Plus(sm: ShaderModel)
    ensures sm.major == 6 ==> (IsSM66Plus(sm) <==> sm.minor >= 6)
    ensures sm.major < 6 ==> !IsSM66Plus(sm)
  {
    VersionAtMost((6, 6), (sm.major, sm.minor))
  }

  /** ShaderModel::AllowDerivatives: pixel, library and node stages always
      may take derivatives; compute, amplification and mesh stages only
      under shader model 6.6 or later; no other stage. The stage is the
      argument, not the record's own kind. */
  predicate AllowDerivatives(sm: ShaderModel, sk: Kind)
    ensures sk in {Pixel, Library, Node} ==> AllowDerivatives(sm, sk)
    ensures sk in {Compute, Amplification, Mesh} ==> (AllowDerivatives(sm, sk) <==> IsSM66Plus(sm))
    ensures !(sk in {Pixel, Library, Node, Compute, Amplification, Mesh}) ==> !AllowDerivatives(sm, sk)
  {
    match sk
    case Pixel | Library | Node => true
    case Compute | Amplification | Mesh => IsSM66Plus(sm)
    case _ => false
  }

  /** Moving to a newer shader model never takes derivatives away. */
  lemma AllowDerivativesMonotone(a: ShaderModel, b: ShaderModel, sk: Kind)
    requires VersionAtMost((a.major, a.minor), (b.major, b.minor))
    ensures AllowDerivatives(a, sk) ==> AllowDerivatives(b, sk)
  {
  }

  /** Over the compute profiles of the table, compute derivatives start at
      cs_6_6: every compute profile before it refuses them and every one
      from it on allows them. */
  lemma ComputeDerivativesStartAt66(i: nat)
    requires 61 <= i < 74
    ensures Table[i].kind == Compute
    ensures AllowDerivatives(Table[i], Compute) <==> i >= 71
    ensures Table[71].name == "cs_6_6"
  {
    TableSortedByVersion();
    assert Table[61] == ComputeModels[0] && Table[70] == ComputeModels[9];
    assert Table[71] == ComputeModels[10] && Table[73] == ComputeModels[12];
    if i > 61 {
      assert VersionBefore(Table[61], Table[i]);
    }
    if i < 73 {
      assert VersionBefore(Table[i], Table[73]);
    }
    if i < 70 {
      assert VersionBefore(Table[i], Table[70]);
    }
    if i > 71 {
      assert VersionBefore(Table[71], Table[i]);
    }
  }

  /** ShaderModel::operator==: field by field, the names by content. */
  predicate Equals(a: ShaderModel, b: ShaderModel)
    ensures Equals(a, b) <==> a == b
  {
    a.kind == b.kind && a.major == b.major && a.minor == b.minor && a.name == b.name &&
    a.numInputRegs == b.numInputRegs && a.numOutputRegs == b.numOutputRegs &&
    a.typedUavs == b.typedUavs && a.numUavRegs == b.numUavRegs
  }

  /** No two slots of the table hold equal records, so comparing records
      with operator== identifies table slots. */
  lemma TableEntriesDistinct(i: nat, j: nat)
    requires i < j < |Table|
    ensures !Equals(Table[i], Table[j])
  {
    KeyTableAgrees();
    KeyTableStrictlyIncreasing();
    TableShape();
    ProfilesAreCanonical();
    if j < |Table| - 1 {
      assert KeyOf(Table[i]) < KeyOf(Table[j]);
    }
  }
}
