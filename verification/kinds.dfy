/** Shader stages and the name mappers that cross the text boundary:
    the short profile prefix ("ps"), the attribute spelling ("pixel"). */
module ShaderKinds {

  /** One enumeration for both ShaderModel::Kind and DXIL::ShaderKind; the
      declaration order is the ordinal order. */
  datatype Kind =
    | Pixel | Vertex | Geometry | Hull | Domain | Compute | Library
    | RayGeneration | Intersection | AnyHit | ClosestHit | Miss | Callable
    | Mesh | Amplification | Node | Invalid

  /** Number of kinds, Invalid included. */
  const KindCount: nat := 17

  /** The integer value of a kind, as `(unsigned)Kind` gives it. */
  function Ordinal(k: Kind): (n: nat)
    ensures n < KindCount
    ensures n == KindCount - 1 <==> k == Invalid
  {
    match k
    case Pixel => 0
    case Vertex => 1
    case Geometry => 2
    case Hull => 3
    case Domain => 4
    case Compute => 5
    case Library => 6
    case RayGeneration => 7
    case Intersection => 8
    case AnyHit => 9
    case ClosestHit => 10
    case Miss => 11
    case Callable => 12
    case Mesh => 13
    case Amplification => 14
    case Node => 15
    case Invalid => 16
  }

  /** The kind whose ordinal is `n`: the inverse of Ordinal. */
  function KindOfOrdinal(n: nat): (k: Kind)
    requires n < KindCount
    ensures Ordinal(k) == n
  {
    match n
    case 0 => Pixel
    case 1 => Vertex
    case 2 => Geometry
    case 3 => Hull
    case 4 => Domain
    case 5 => Compute
    case 6 => Library
    case 7 => RayGeneration
    case 8 => Intersection
    case 9 => AnyHit
    case 10 => ClosestHit
    case 11 => Miss
    case 12 => Callable
    case 13 => Mesh
    case 14 => Amplification
    case 15 => Node
    case _ => Invalid
  }

  /** Ordinal is one-to-one, so ordinals can stand for kinds in a packed key. */
  lemma OrdinalInjective(a: Kind, b: Kind)
    ensures Ordinal(a) == Ordinal(b) <==> a == b
  {
    if Ordinal(a) == Ordinal(b) {
      assert KindOfOrdinal(Ordinal(a)) == a;
      assert KindOfOrdinal(Ordinal(b)) == b;
    }
  }

  /** The short names, indexed by ordinal; the last one belongs to Invalid. */
  const KindNames: seq<string> := [
    "ps", "vs", "gs", "hs",
    "ds", "cs", "lib", "raygeneration",
    "intersection", "anyhit", "closesthit", "miss",
    "callable", "ms", "as", "node",
    "invalid"
  ]

  /** The short-name array has exactly one entry per kind (the source's
      static_assert), the last one for Invalid. */
  lemma KindNamesCoverKinds()
    ensures |KindNames| == KindCount && Ordinal(Invalid) == |KindNames| - 1
  {
  }

  /** ShaderModel::GetKindName: the short name of a kind; only Invalid is
      called "invalid". */
  function GetKindName(k: Kind): (name: string)
    ensures name == "invalid" <==> k == Invalid
  {
    KindNames[Ordinal(k)]
  }

  /** The attribute spelling of a kind; Library and Invalid have none (the
      empty string). */
  function FullNameFromKind(k: Kind): (name: string)
    ensures name == "" <==> k == Library || k == Invalid
  {
    match k
    case Pixel => "pixel"
    case Vertex => "vertex"
    case Geometry => "geometry"
    case Hull => "hull"
    case Domain => "domain"
    case Compute => "compute"
    case Library => ""
    case Invalid => ""
    case RayGeneration => "raygeneration"
    case Intersection => "intersection"
    case AnyHit => "anyhit"
    case ClosestHit => "closesthit"
    case Miss => "miss"
    case Callable => "callable"
    case Mesh => "mesh"
    case Amplification => "amplification"
    case Node => "node"
  }

  /** The kind an attribute spelling names, by exact (case-sensitive) match;
      anything else is Invalid. A recognised name is the spelling of the kind
      it yields, and no name yields Library. */
  function KindFromFullName(name: string): (k: Kind)
    ensures k != Invalid ==> FullNameFromKind(k) == name
    ensures k != Library
  {
    if name == "pixel" then Pixel
    else if name == "vertex" then Vertex
    else if name == "geometry" then Geometry
    else if name == "hull" then Hull
    else if name == "domain" then Domain
    else if name == "compute" then Compute
    else if name == "raygeneration" then RayGeneration
    else if name == "intersection" then Intersection
    else if name == "anyhit" then AnyHit
    else if name == "closesthit" then ClosestHit
    else if name == "miss" then Miss
    else if name == "callable" then Callable
    else if name == "mesh" then Mesh
    else if name == "amplification" then Amplification
    else if name == "node" then Node
    else Invalid
  }

  /** Printing then parsing an attribute spelling gives the kind back for
      every kind that has a spelling; Library and Invalid both print as the
      empty name, which parses as Invalid. */
  lemma FullNameRoundTrip(k: Kind)
    ensures k != Library && k != Invalid ==> KindFromFullName(FullNameFromKind(k)) == k
    ensures k == Library || k == Invalid ==> KindFromFullName(FullNameFromKind(k)) == Invalid
  {
  }

  /** The other direction: a name parses to a real kind exactly when it is
      that kind's spelling. */
  lemma FullNameParsesOnlySpellings(name: string, k: Kind)
    requires k != Invalid
    ensures KindFromFullName(name) == k <==> k != Library && FullNameFromKind(k) == name
  {
    if k != Library && FullNameFromKind(k) == name {
      FullNameRoundTrip(k);
    }
  }
}
