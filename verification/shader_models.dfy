/** The registry of shader models: one record per supported profile, in
    ascending (kind, major, minor) order, followed by the "invalid" sentinel,
    and the table of packed keys that the lookup searches. */
module ShaderModels {
  import opened ShaderKinds
  import opened ProfileNames

  /** The source's `unsigned`. */
  type Unsigned = x: int | 0 <= x < 0x1_0000_0000

  /** UINT_MAX, the UAV register count that stands for "unbounded". */
  const UintMax: Unsigned := 0xFFFF_FFFF

  /** kNumShaderModels: the profiles plus the sentinel. */
  const NumShaderModels: nat := 92

  /** A shader model record. The constructor's "has UAVs" flag is accepted by
      the source but never stored, so it has no field here. */
  datatype ShaderModel = ShaderModel(
    kind: Kind,
    major: Unsigned,
    minor: Unsigned,
    name: string,
    numInputRegs: Unsigned,
    numOutputRegs: Unsigned,
    typedUavs: bool,
    numUavRegs: Unsigned)

  // The table, one constant per stage so that each part stays small enough
  // for the verifier to check entry by entry; the order is the table's.

  const PixelModels: seq<ShaderModel> := [
    ShaderModel(Pixel, 4, 0, "ps_4_0", 32, 8, false, 0),
    ShaderModel(Pixel, 4, 1, "ps_4_1", 32, 8, false, 0),
    ShaderModel(Pixel, 5, 0, "ps_5_0", 32, 8, true, 64),
    ShaderModel(Pixel, 5, 1, "ps_5_1", 32, 8, true, 64),
    ShaderModel(Pixel, 6, 0, "ps_6_0", 32, 8, true, UintMax),
    ShaderModel(Pixel, 6, 1, "ps_6_1", 32, 8, true, UintMax),
    ShaderModel(Pixel, 6, 2, "ps_6_2", 32, 8, true, UintMax),
    ShaderModel(Pixel, 6, 3, "ps_6_3", 32, 8, true, UintMax),
    ShaderModel(Pixel, 6, 4, "ps_6_4", 32, 8, true, UintMax),
    ShaderModel(Pixel, 6, 5, "ps_6_5", 32, 8, true, UintMax),
    ShaderModel(Pixel, 6, 6, "ps_6_6", 32, 8, true, UintMax),
    ShaderModel(Pixel, 6, 7, "ps_6_7", 32, 8, true, UintMax),
    ShaderModel(Pixel, 6, 8, "ps_6_8", 32, 8, true, UintMax)
  ]

  const PixelKeys: seq<(nat, nat)> := [
    (1024, 0), (1025, 1), (1280, 2), (1281, 3), (1536, 4),
    (1537, 5), (1538, 6), (1539, 7), (1540, 8), (1541, 9),
    (1542, 10), (1543, 11), (1544, 12)
  ]

  const VertexModels: seq<ShaderModel> := [
    ShaderModel(Vertex, 4, 0, "vs_4_0", 16, 16, false, 0),
    ShaderModel(Vertex, 4, 1, "vs_4_1", 32, 32, false, 0),
    ShaderModel(Vertex, 5, 0, "vs_5_0", 32, 32, true, 64),
    ShaderModel(Vertex, 5, 1, "vs_5_1", 32, 32, true, 64),
    ShaderModel(Vertex, 6, 0, "vs_6_0", 32, 32, true, UintMax),
    ShaderModel(Vertex, 6, 1, "vs_6_1", 32, 32, true, UintMax),
    ShaderModel(Vertex, 6, 2, "vs_6_2", 32, 32, true, UintMax),
    ShaderModel(Vertex, 6, 3, "vs_6_3", 32, 32, true, UintMax),
    ShaderModel(Vertex, 6, 4, "vs_6_4", 32, 32, true, UintMax),
    ShaderModel(Vertex, 6, 5, "vs_6_5", 32, 32, true, UintMax),
    ShaderModel(Vertex, 6, 6, "vs_6_6", 32, 32, true, UintMax),
    ShaderModel(Vertex, 6, 7, "vs_6_7", 32, 32, true, UintMax),
    ShaderModel(Vertex, 6, 8, "vs_6_8", 32, 32, true, UintMax)
  ]

  const VertexKeys: seq<(nat, nat)> := [
    (66560, 13), (66561, 14), (66816, 15), (66817, 16), (67072, 17),
    (67073, 18), (67074, 19), (67075, 20), (67076, 21), (67077, 22),
    (67078, 23), (67079, 24), (67080, 25)
  ]

  const GeometryModels: seq<ShaderModel> := [
    ShaderModel(Geometry, 4, 0, "gs_4_0", 16, 32, false, 0),
    ShaderModel(Geometry, 4, 1, "gs_4_1", 32, 32, false, 0),
    ShaderModel(Geometry, 5, 0, "gs_5_0", 32, 32, true, 64),
    ShaderModel(Geometry, 5, 1, "gs_5_1", 32, 32, true, 64),
    ShaderModel(Geometry, 6, 0, "gs_6_0", 32, 32, true, UintMax),
    ShaderModel(Geometry, 6, 1, "gs_6_1", 32, 32, true, UintMax),
    ShaderModel(Geometry, 6, 2, "gs_6_2", 32, 32, true, UintMax),
    ShaderModel(Geometry, 6, 3, "gs_6_3", 32, 32, true, UintMax),
    ShaderModel(Geometry, 6, 4, "gs_6_4", 32, 32, true, UintMax),
    ShaderModel(Geometry, 6, 5, "gs_6_5", 32, 32, true, UintMax),
    ShaderModel(Geometry, 6, 6, "gs_6_6", 32, 32, true, UintMax),
    ShaderModel(Geometry, 6, 7, "gs_6_7", 32, 32, true, UintMax),
    ShaderModel(Geometry, 6, 8, "gs_6_8", 32, 32, true, UintMax)
  ]

  const GeometryKeys: seq<(nat, nat)> := [
    (132096, 26), (132097, 27), (132352, 28), (132353, 29), (132608, 30),
    (132609, 31), (132610, 32), (132611, 33), (132612, 34), (132613, 35),
    (132614, 36), (132615, 37), (132616, 38)
  ]

  const HullModels: seq<ShaderModel> := [
    ShaderModel(Hull, 5, 0, "hs_5_0", 32, 32, true, 64),
    ShaderModel(Hull, 5, 1, "hs_5_1", 32, 32, true, 64),
    ShaderModel(Hull, 6, 0, "hs_6_0", 32, 32, true, UintMax),
    ShaderModel(Hull, 6, 1, "hs_6_1", 32, 32, true, UintMax),
    ShaderModel(Hull, 6, 2, "hs_6_2", 32, 32, true, UintMax),
    ShaderModel(Hull, 6, 3, "hs_6_3", 32, 32, true, UintMax),
    ShaderModel(Hull, 6, 4, "hs_6_4", 32, 32, true, UintMax),
    ShaderModel(Hull, 6, 5, "hs_6_5", 32, 32, true, UintMax),
    ShaderModel(Hull, 6, 6, "hs_6_6", 32, 32, true, UintMax),
    ShaderModel(Hull, 6, 7, "hs_6_7", 32, 32, true, UintMax),
    ShaderModel(Hull, 6, 8, "hs_6_8", 32, 32, true, UintMax)
  ]

  const HullKeys: seq<(nat, nat)> := [
    (197888, 39), (197889, 40), (198144, 41), (198145, 42), (198146, 43),
    (198147, 44), (198148, 45), (198149, 46), (198150, 47), (198151, 48),
    (198152, 49)
  ]

  const DomainModels: seq<ShaderModel> := [
    ShaderModel(Domain, 5, 0, "ds_5_0", 32, 32, true, 64),
    ShaderModel(Domain, 5, 1, "ds_5_1", 32, 32, true, 64),
    ShaderModel(Domain, 6, 0, "ds_6_0", 32, 32, true, UintMax),
    ShaderModel(Domain, 6, 1, "ds_6_1", 32, 32, true, UintMax),
    ShaderModel(Domain, 6, 2, "ds_6_2", 32, 32, true, UintMax),
    ShaderModel(Domain, 6, 3, "ds_6_3", 32, 32, true, UintMax),
    ShaderModel(Domain, 6, 4, "ds_6_4", 32, 32, true, UintMax),
    ShaderModel(Domain, 6, 5, "ds_6_5", 32, 32, true, UintMax),
    ShaderModel(Domain, 6, 6, "ds_6_6", 32, 32, true, UintMax),
    ShaderModel(Domain, 6, 7, "ds_6_7", 32, 32, true, UintMax),
    ShaderModel(Domain, 6, 8, "ds_6_8", 32, 32, true, UintMax)
  ]

  const DomainKeys: seq<(nat, nat)> := [
    (263424, 50), (263425, 51), (263680, 52), (263681, 53), (263682, 54),
    (263683, 55), (263684, 56), (263685, 57), (263686, 58), (263687, 59),
    (263688, 60)
  ]

  const ComputeModels: seq<ShaderModel> := [
    ShaderModel(Compute, 4, 0, "cs_4_0", 0, 0, false, 0),
    ShaderModel(Compute, 4, 1, "cs_4_1", 0, 0, false, 0),
    ShaderModel(Compute, 5, 0, "cs_5_0", 0, 0, true, 64),
    ShaderModel(Compute, 5, 1, "cs_5_1", 0, 0, true, 64),
    ShaderModel(Compute, 6, 0, "cs_6_0", 0, 0, true, UintMax),
    ShaderModel(Compute, 6, 1, "cs_6_1", 0, 0, true, UintMax),
    ShaderModel(Compute, 6, 2, "cs_6_2", 0, 0, true, UintMax),
    ShaderModel(Compute, 6, 3, "cs_6_3", 0, 0, true, UintMax),
    ShaderModel(Compute, 6, 4, "cs_6_4", 0, 0, true, UintMax),
    ShaderModel(Compute, 6, 5, "cs_6_5", 0, 0, true, UintMax),
    ShaderModel(Compute, 6, 6, "cs_6_6", 0, 0, true, UintMax),
    ShaderModel(Compute, 6, 7, "cs_6_7", 0, 0, true, UintMax),
    ShaderModel(Compute, 6, 8, "cs_6_8", 0, 0, true, UintMax)
  ]

  const ComputeKeys: seq<(nat, nat)> := [
    (328704, 61), (328705, 62), (328960, 63), (328961, 64), (329216, 65),
    (329217, 66), (329218, 67), (329219, 68), (329220, 69), (329221, 70),
    (329222, 71), (329223, 72), (329224, 73)
  ]

  const LibraryModels: seq<ShaderModel> := [
    ShaderModel(Library, 6, 1, "lib_6_1", 32, 32, true, UintMax),
    ShaderModel(Library, 6, 2, "lib_6_2", 32, 32, true, UintMax),
    ShaderModel(Library, 6, 3, "lib_6_3", 32, 32, true, UintMax),
    ShaderModel(Library, 6, 4, "lib_6_4", 32, 32, true, UintMax),
    ShaderModel(Library, 6, 5, "lib_6_5", 32, 32, true, UintMax),
    ShaderModel(Library, 6, 6, "lib_6_6", 32, 32, true, UintMax),
    ShaderModel(Library, 6, 7, "lib_6_7", 32, 32, true, UintMax),
    ShaderModel(Library, 6, 8, "lib_6_8", 32, 32, true, UintMax),
    ShaderModel(Library, 6, OfflineMinor, "lib_6_x", 32, 32, true, UintMax)
  ]

  const LibraryKeys: seq<(nat, nat)> := [
    (394753, 74), (394754, 75), (394755, 76), (394756, 77), (394757, 78),
    (394758, 79), (394759, 80), (394760, 81), (394767, 82)
  ]

  const MeshModels: seq<ShaderModel> := [
    ShaderModel(Mesh, 6, 5, "ms_6_5", 0, 0, true, UintMax),
    ShaderModel(Mesh, 6, 6, "ms_6_6", 0, 0, true, UintMax),
    ShaderModel(Mesh, 6, 7, "ms_6_7", 0, 0, true, UintMax),
    ShaderModel(Mesh, 6, 8, "ms_6_8", 0, 0, true, UintMax)
  ]

  const MeshKeys: seq<(nat, nat)> := [
    (853509, 83), (853510, 84), (853511, 85), (853512, 86)
  ]

  const AmplificationModels: seq<ShaderModel> := [
    ShaderModel(Amplification, 6, 5, "as_6_5", 0, 0, true, UintMax),
    ShaderModel(Amplification, 6, 6, "as_6_6", 0, 0, true, UintMax),
    ShaderModel(Amplification, 6, 7, "as_6_7", 0, 0, true, UintMax),
    ShaderModel(Amplification, 6, 8, "as_6_8", 0, 0, true, UintMax)
  ]

  const AmplificationKeys: seq<(nat, nat)> := [
    (919045, 87), (919046, 88), (919047, 89), (919048, 90)
  ]
  /** The record returned for every failed lookup. */
  const InvalidModel: ShaderModel := ShaderModel(Invalid, 0, 0, "invalid", 0, 0, false, 0)

  /** All real profiles, in table order. */
  const Profiles: seq<ShaderModel> :=
    PixelModels + VertexModels + GeometryModels + HullModels + DomainModels +
    ComputeModels + LibraryModels + MeshModels + AmplificationModels

  /** ms_ShaderModels: the profiles followed by the sentinel. */
  const Table: seq<ShaderModel> := Profiles + [InvalidModel]

  /** hashToIdxMap: (packed key, index into Table) pairs. */
  const HashToIdx: seq<(nat, nat)> :=
    PixelKeys + VertexKeys + GeometryKeys + HullKeys + DomainKeys +
    ComputeKeys + LibraryKeys + MeshKeys + AmplificationKeys

  /** The packed key `kind << 16 | major << 8 | minor` in arithmetic form, which
      is what the bitwise form computes while major and minor stay below 256. */
  function Key(k: Kind, major: nat, minor: nat): nat {
    Ordinal(k) * 65536 + major * 256 + minor
  }

  function KeyOf(e: ShaderModel): nat {
    Key(e.kind, e.major, e.minor)
  }

  /** (major, minor) version pairs, compared lexicographically. */
  predicate VersionAtMost(a: (nat, nat), b: (nat, nat)) {
    a.0 < b.0 || (a.0 == b.0 && a.1 <= b.1)
  }

  /** Records ordered by kind ordinal, then strictly by version. */
  predicate VersionBefore(a: ShaderModel, b: ShaderModel) {
    Ordinal(a.kind) < Ordinal(b.kind) ||
    (a.kind == b.kind && !VersionAtMost((b.major, b.minor), (a.major, a.minor)))
  }

  /** A real profile: a triple the name grammar admits, spelled canonically. */
  predicate Canonical(e: ShaderModel) {
    Admissible(e.kind, e.major, e.minor) && e.name == ProfileName(e.kind, e.major, e.minor)
  }

  predicate AllCanonical(models: seq<ShaderModel>) {
    forall i :: 0 <= i < |models| ==> Canonical(models[i])
  }

  /** A run of records starting at index `base` and the matching run of the
      key table: each key pair is (the record's key, the record's index). */
  predicate KeyedFrom(models: seq<ShaderModel>, keys: seq<(nat, nat)>, base: nat) {
    |models| == |keys| &&
    forall i :: 0 <= i < |models| ==> keys[i] == (KeyOf(models[i]), base + i)
  }

  /** Neighbouring keys strictly increase. */
  predicate Ascending(keys: seq<(nat, nat)>) {
    forall i :: 0 <= i < |keys| - 1 ==> keys[i].0 < keys[i + 1].0
  }

  /** A run of the tables starting at index `base`, as it must be. */
  predicate Run(models: seq<ShaderModel>, keys: seq<(nat, nat)>, base: nat) {
    KeyedFrom(models, keys, base) && Ascending(keys) && AllCanonical(models)
  }

  // Per-stage facts, checked entry by entry; one fact per lemma keeps each
  // check small.

  lemma PixelCanonical()
    ensures |PixelModels| == |PixelKeys| == 13
    ensures forall i :: 0 <= i < 13 ==> Canonical(PixelModels[i])
  {
  }

  lemma PixelKeyed()
    ensures forall i :: 0 <= i < 13 ==> PixelKeys[i] == (KeyOf(PixelModels[i]), i)
  {
  }

  lemma PixelAscending()
    ensures forall i :: 0 <= i < 12 ==> PixelKeys[i].0 < PixelKeys[i + 1].0
  {
  }

  lemma VertexCanonical()
    ensures |VertexModels| == |VertexKeys| == 13
    ensures forall i :: 0 <= i < 13 ==> Canonical(VertexModels[i])
  {
  }

  lemma VertexKeyed()
    ensures forall i :: 0 <= i < 13 ==> VertexKeys[i] == (KeyOf(VertexModels[i]), 13 + i)
  {
  }

  lemma VertexAscending()
    ensures forall i :: 0 <= i < 12 ==> VertexKeys[i].0 < VertexKeys[i + 1].0
  {
  }

  lemma GeometryCanonical()
    ensures |GeometryModels| == |GeometryKeys| == 13
    ensures forall i :: 0 <= i < 13 ==> Canonical(GeometryModels[i])
  {
  }

  lemma GeometryKeyed()
    ensures forall i :: 0 <= i < 13 ==> GeometryKeys[i] == (KeyOf(GeometryModels[i]), 26 + i)
  {
  }

  lemma GeometryAscending()
    ensures forall i :: 0 <= i < 12 ==> GeometryKeys[i].0 < GeometryKeys[i + 1].0
  {
  }

  lemma HullCanonical()
    ensures |HullModels| == |HullKeys| == 11
    ensures forall i :: 0 <= i < 11 ==> Canonical(HullModels[i])
  {
  }

  lemma HullKeyed()
    ensures forall i :: 0 <= i < 11 ==> HullKeys[i] == (KeyOf(HullModels[i]), 39 + i)
  {
  }

  lemma HullAscending()
    ensures forall i :: 0 <= i < 10 ==> HullKeys[i].0 < HullKeys[i + 1].0
  {
  }

  lemma DomainCanonical()
    ensures |DomainModels| == |DomainKeys| == 11
    ensures forall i :: 0 <= i < 11 ==> Canonical(DomainModels[i])
  {
  }

  lemma DomainKeyed()
    ensures forall i :: 0 <= i < 11 ==> DomainKeys[i] == (KeyOf(DomainModels[i]), 50 + i)
  {
  }

  lemma DomainAscending()
    ensures forall i :: 0 <= i < 10 ==> DomainKeys[i].0 < DomainKeys[i + 1].0
  {
  }

  lemma ComputeCanonical()
    ensures |ComputeModels| == |ComputeKeys| == 13
    ensures forall i :: 0 <= i < 13 ==> Canonical(ComputeModels[i])
  {
  }

  lemma ComputeKeyed()
    ensures forall i :: 0 <= i < 13 ==> ComputeKeys[i] == (KeyOf(ComputeModels[i]), 61 + i)
  {
  }

  lemma ComputeAscending()
    ensures forall i :: 0 <= i < 12 ==> ComputeKeys[i].0 < ComputeKeys[i + 1].0
  {
  }

  lemma LibraryCanonical()
    ensures |LibraryModels| == |LibraryKeys| == 9
    ensures forall i :: 0 <= i < 9 ==> Canonical(LibraryModels[i])
  {
  }

  lemma LibraryKeyed()
    ensures forall i :: 0 <= i < 9 ==> LibraryKeys[i] == (KeyOf(LibraryModels[i]), 74 + i)
  {
  }

  lemma LibraryAscending()
    ensures forall i :: 0 <= i < 8 ==> LibraryKeys[i].0 < LibraryKeys[i + 1].0
  {
  }

  lemma MeshCanonical()
    ensures |MeshModels| == |MeshKeys| == 4
    ensures forall i :: 0 <= i < 4 ==> Canonical(MeshModels[i])
  {
  }

  lemma MeshKeyed()
    ensures forall i :: 0 <= i < 4 ==> MeshKeys[i] == (KeyOf(MeshModels[i]), 83 + i)
  {
  }

  lemma MeshAscending()
    ensures forall i :: 0 <= i < 3 ==> MeshKeys[i].0 < MeshKeys[i + 1].0
  {
  }

  lemma AmplificationCanonical()
    ensures |AmplificationModels| == |AmplificationKeys| == 4
    ensures forall i :: 0 <= i < 4 ==> Canonical(AmplificationModels[i])
  {
  }

  lemma AmplificationKeyed()
    ensures forall i :: 0 <= i < 4 ==> AmplificationKeys[i] == (KeyOf(AmplificationModels[i]), 87 + i)
  {
  }

  lemma AmplificationAscending()
    ensures forall i :: 0 <= i < 3 ==> AmplificationKeys[i].0 < AmplificationKeys[i + 1].0
  {
  }

  lemma PixelRun()
    ensures Run(PixelModels, PixelKeys, 0)
  {
    PixelCanonical(); PixelKeyed(); PixelAscending();
  }

  lemma VertexRun()
    ensures Run(VertexModels, VertexKeys, 13)
  {
    VertexCanonical(); VertexKeyed(); VertexAscending();
  }

  lemma GeometryRun()
    ensures Run(GeometryModels, GeometryKeys, 26)
  {
    GeometryCanonical(); GeometryKeyed(); GeometryAscending();
  }

  lemma HullRun()
    ensures Run(HullModels, HullKeys, 39)
  {
    HullCanonical(); HullKeyed(); HullAscending();
  }

  lemma DomainRun()
    ensures Run(DomainModels, DomainKeys, 50)
  {
    DomainCanonical(); DomainKeyed(); DomainAscending();
  }

  lemma ComputeRun()
    ensures Run(ComputeModels, ComputeKeys, 61)
  {
    ComputeCanonical(); ComputeKeyed(); ComputeAscending();
  }

  lemma LibraryRun()
    ensures Run(LibraryModels, LibraryKeys, 74)
  {
    LibraryCanonical(); LibraryKeyed(); LibraryAscending();
  }

  lemma MeshRun()
    ensures Run(MeshModels, MeshKeys, 83)
  {
    MeshCanonical(); MeshKeyed(); MeshAscending();
  }

  lemma AmplificationRun()
    ensures Run(AmplificationModels, AmplificationKeys, 87)
  {
    AmplificationCanonical(); AmplificationKeyed(); AmplificationAscending();
  }

  /** Appending a well-formed run of records and keys to another keeps the
      whole well formed, provided the keys still increase across the seam. */
  lemma Join(m1: seq<ShaderModel>, k1: seq<(nat, nat)>, m2: seq<ShaderModel>, k2: seq<(nat, nat)>)
    requires Run(m1, k1, 0) && Run(m2, k2, |m1|)
    requires k1 != [] && k2 != [] && k1[|k1| - 1].0 < k2[0].0
    ensures Run(m1 + m2, k1 + k2, 0)
  {
    JoinKeyed(m1, k1, m2, k2);
    JoinAscending(k1, k2);
    JoinCanonical(m1, m2);
  }

  lemma JoinKeyed(m1: seq<ShaderModel>, k1: seq<(nat, nat)>, m2: seq<ShaderModel>, k2: seq<(nat, nat)>)
    requires KeyedFrom(m1, k1, 0) && KeyedFrom(m2, k2, |m1|)
    ensures KeyedFrom(m1 + m2, k1 + k2, 0)
  {
    var m, k := m1 + m2, k1 + k2;
    forall i | |m1| <= i < |m| ensures k[i] == (KeyOf(m[i]), i) {
      assert m[i] == m2[i - |m1|] && k[i] == k2[i - |m1|];
    }
  }

  lemma JoinAscending(k1: seq<(nat, nat)>, k2: seq<(nat, nat)>)
    requires Ascending(k1) && Ascending(k2)
    requires k1 != [] && k2 != [] && k1[|k1| - 1].0 < k2[0].0
    ensures Ascending(k1 + k2)
  {
    var k := k1 + k2;
    forall i | |k1| <= i < |k| - 1 ensures k[i].0 < k[i + 1].0 {
      assert k[i] == k2[i - |k1|] && k[i + 1] == k2[i + 1 - |k1|];
    }
  }

  lemma JoinCanonical(m1: seq<ShaderModel>, m2: seq<ShaderModel>)
    requires AllCanonical(m1) && AllCanonical(m2)
    ensures AllCanonical(m1 + m2)
  {
    var m := m1 + m2;
    forall i | |m1| <= i < |m| ensures Canonical(m[i]) {
      assert m[i] == m2[i - |m1|];
    }
  }

  // The runs joined stage by stage, in table order.

  lemma ThroughVertex()
    ensures Run(PixelModels + VertexModels, PixelKeys + VertexKeys, 0)
  {
    PixelRun(); VertexRun();
    Join(PixelModels, PixelKeys, VertexModels, VertexKeys);
  }

  lemma ThroughGeometry()
    ensures Run(PixelModels + VertexModels + GeometryModels, PixelKeys + VertexKeys + GeometryKeys, 0)
  {
    ThroughVertex(); GeometryRun();
    Join(PixelModels + VertexModels, PixelKeys + VertexKeys, GeometryModels, GeometryKeys);
  }

  lemma ThroughHull()
    ensures Run(PixelModels + VertexModels + GeometryModels + HullModels, PixelKeys + VertexKeys + GeometryKeys + HullKeys, 0)
  {
    ThroughGeometry(); HullRun();
    Join(PixelModels + VertexModels + GeometryModels, PixelKeys + VertexKeys + GeometryKeys, HullModels, HullKeys);
  }

  lemma ThroughDomain()
    ensures Run(PixelModels + VertexModels + GeometryModels + HullModels + DomainModels, PixelKeys + VertexKeys + GeometryKeys + HullKeys + DomainKeys, 0)
  {
    ThroughHull(); DomainRun();
    Join(PixelModels + VertexModels + GeometryModels + HullModels, PixelKeys + VertexKeys + GeometryKeys + HullKeys, DomainModels, DomainKeys);
  }

  lemma ThroughCompute()
    ensures Run(PixelModels + VertexModels + GeometryModels + HullModels + DomainModels + ComputeModels, PixelKeys + VertexKeys + GeometryKeys + HullKeys + DomainKeys + ComputeKeys, 0)
  {
    ThroughDomain(); ComputeRun();
    Join(PixelModels + VertexModels + GeometryModels + HullModels + DomainModels, PixelKeys + VertexKeys + GeometryKeys + HullKeys + DomainKeys, ComputeModels, ComputeKeys);
  }

  lemma ThroughLibrary()
    ensures Run(PixelModels + VertexModels + GeometryModels + HullModels + DomainModels + ComputeModels + LibraryModels, PixelKeys + VertexKeys + GeometryKeys + HullKeys + DomainKeys + ComputeKeys + LibraryKeys, 0)
  {
    ThroughCompute(); LibraryRun();
    Join(PixelModels + VertexModels + GeometryModels + HullModels + DomainModels + ComputeModels, PixelKeys + VertexKeys + GeometryKeys + HullKeys + DomainKeys + ComputeKeys, LibraryModels, LibraryKeys);
  }

  lemma ThroughMesh()
    ensures Run(PixelModels + VertexModels + GeometryModels + HullModels + DomainModels + ComputeModels + LibraryModels + MeshModels, PixelKeys + VertexKeys + GeometryKeys + HullKeys + DomainKeys + ComputeKeys + LibraryKeys + MeshKeys, 0)
  {
    ThroughLibrary(); MeshRun();
    Join(PixelModels + VertexModels + GeometryModels + HullModels + DomainModels + ComputeModels + LibraryModels, PixelKeys + VertexKeys + GeometryKeys + HullKeys + DomainKeys + ComputeKeys + LibraryKeys, MeshModels, MeshKeys);
  }

  lemma ThroughAmplification()
    ensures Run(PixelModels + VertexModels + GeometryModels + HullModels + DomainModels + ComputeModels + LibraryModels + MeshModels + AmplificationModels, PixelKeys + VertexKeys + GeometryKeys + HullKeys + DomainKeys + ComputeKeys + LibraryKeys + MeshKeys + AmplificationKeys, 0)
  {
    ThroughMesh(); AmplificationRun();
    Join(PixelModels + VertexModels + GeometryModels + HullModels + DomainModels + ComputeModels + LibraryModels + MeshModels, PixelKeys + VertexKeys + GeometryKeys + HullKeys + DomainKeys + ComputeKeys + LibraryKeys + MeshKeys, AmplificationModels, AmplificationKeys);
  }

  /** The key table is exactly the profiles' keys, in order, each paired with
      its own index, the keys increase, and every profile is canonical. */
  lemma ProfilesWellFormed()
    ensures Run(Profiles, HashToIdx, 0)
  {
    ThroughAmplification();
  }

  /** Keys in strictly ascending order, as lower_bound needs them. */
  predicate StrictlyAscending(keys: seq<(nat, nat)>) {
    forall i, j :: 0 <= i < j < |keys| ==> keys[i].0 < keys[j].0
  }

  /** Neighbouring keys increasing makes every pair of keys increase. */
  lemma {:induction false} AscendingPairwise(keys: seq<(nat, nat)>)
    requires Ascending(keys)
    ensures StrictlyAscending(keys)
  {
    if |keys| > 1 {
      var tail := keys[1..];
      assert Ascending(tail) by {
        forall i | 0 <= i < |tail| - 1 ensures tail[i].0 < tail[i + 1].0 {
          assert tail[i] == keys[i + 1] && tail[i + 1] == keys[i + 2];
        }
      }
      AscendingPairwise(tail);
      forall i, j | 0 <= i < j < |keys| ensures keys[i].0 < keys[j].0 {
        if i > 0 {
          assert keys[i] == tail[i - 1] && keys[j] == tail[j - 1];
        } else if j > 1 {
          assert keys[1] == tail[0] && keys[j] == tail[j - 1];
        }
      }
    }
  }

  /** hashToIdxMap is strictly increasing in its keys, which the binary
      search relies on. */
  lemma KeyTableStrictlyIncreasing()
    ensures StrictlyAscending(HashToIdx)
  {
    ProfilesWellFormed();
    AscendingPairwise(HashToIdx);
  }

  /** The table holds the profiles and then the "invalid" sentinel, and the
      key table has one pair per profile. */
  lemma TableShape()
    ensures |Table| == NumShaderModels && |HashToIdx| == |Table| - 1
    ensures Table[|Table| - 1] == InvalidModel
  {
  }

  /** Every record before the sentinel is an admissible, canonically named
      triple: so it is not Invalid, and only a version-6 library carries the
      offline minor. */
  lemma ProfilesAreCanonical()
    ensures forall i :: 0 <= i < |Table| - 1 ==> Canonical(Table[i]) && Table[i].kind != Invalid
    ensures forall i :: 0 <= i < |Table| - 1 && Table[i].minor == OfflineMinor ==>
      Table[i].kind == Library && Table[i].major == 6
  {
    ProfilesWellFormed();
    assert forall i :: 0 <= i < |Profiles| ==> Table[i] == Profiles[i];
  }

  /** Each pair of hashToIdxMap is (key of record j, j): the key table and the
      record table agree. */
  lemma KeyTableAgrees()
    ensures |HashToIdx| == |Table| - 1
    ensures forall j :: 0 <= j < |HashToIdx| ==> HashToIdx[j].1 == j && HashToIdx[j].0 == KeyOf(Table[j])
  {
    ProfilesWellFormed();
    assert forall i :: 0 <= i < |Profiles| ==> Table[i] == Profiles[i];
  }

  /** Mixed-radix arithmetic: with major and minor below 256, comparing
      `o * 65536 + major * 256 + minor` compares (o, major, minor)
      lexicographically. */
  lemma PackedOrder(o1: nat, major1: nat, minor1: nat, o2: nat, major2: nat, minor2: nat)
    requires major1 < 256 && minor1 < 256 && major2 < 256 && minor2 < 256
    ensures o1 * 65536 + major1 * 256 + minor1 < o2 * 65536 + major2 * 256 + minor2 <==>
      o1 < o2 || (o1 == o2 && (major1 < major2 || (major1 == major2 && minor1 < minor2)))
    ensures o1 * 65536 + major1 * 256 + minor1 == o2 * 65536 + major2 * 256 + minor2 <==>
      o1 == o2 && major1 == major2 && minor1 == minor2
  {
    var low1, low2 := major1 * 256 + minor1, major2 * 256 + minor2;
    assert low1 < 65536 && low2 < 65536;
    assert low1 < low2 <==> major1 < major2 || (major1 == major2 && minor1 < minor2);
  }

  /** For admissible triples the packed key orders records exactly as
      (kind, major, minor) does, and equal keys mean equal triples. */
  lemma KeyOrderIsVersionOrder(a: ShaderModel, b: ShaderModel)
    requires Admissible(a.kind, a.major, a.minor) && Admissible(b.kind, b.major, b.minor)
    ensures KeyOf(a) < KeyOf(b) <==> VersionBefore(a, b)
    ensures KeyOf(a) == KeyOf(b) <==> a.kind == b.kind && a.major == b.major && a.minor == b.minor
  {
    OrdinalInjective(a.kind, b.kind);
    PackedOrder(Ordinal(a.kind), a.major, a.minor, Ordinal(b.kind), b.major, b.minor);
  }

  /** The records before the sentinel are strictly sorted by kind, then
      major, then minor. */
  lemma TableSortedByVersion()
    ensures forall i, j :: 0 <= i < j < |Table| - 1 ==> VersionBefore(Table[i], Table[j])
  {
    ProfilesAreCanonical();
    KeyTableAgrees();
    KeyTableStrictlyIncreasing();
    forall i, j | 0 <= i < j < |Table| - 1 ensures VersionBefore(Table[i], Table[j]) {
      KeyOrderIsVersionOrder(Table[i], Table[j]);
    }
  }

  /** Every record's name starts with its kind's short name; the sentinel's
      name is exactly the short name of Invalid. */
  lemma NamesStartWithKindName()
    ensures forall i :: 0 <= i < |Table| ==> GetKindName(Table[i].kind) <= Table[i].name
    ensures Table[|Table| - 1].name == GetKindName(Invalid)
  {
    TableShape();
    ProfilesAreCanonical();
    forall i | 0 <= i < |Table| ensures GetKindName(Table[i].kind) <= Table[i].name {
      var e := Table[i];
      if i < |Table| - 1 {
        ProfileNameSpelling(e.kind, e.major, e.minor);
      }
    }
  }
}
