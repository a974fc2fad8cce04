/** The profile-name grammar `<stage>_<major>_<minor>`: which (kind, major,
    minor) triples have a name, and how that name is spelled. */
module ProfileNames {
  import opened ShaderKinds

  /** The minor version that stands for "offline linking only" (`lib_6_x`). */
  const OfflineMinor: nat := 15

  /** The stages a profile name can start with. */
  predicate ProfileStage(k: Kind) {
    k == Pixel || k == Vertex || k == Geometry || k == Hull || k == Domain ||
    k == Compute || k == Library || k == Mesh || k == Amplification
  }

  /** The triples the profile-name parser accepts: major 4, 5 or 6; minor 0
      or 1 under any major, 2 to 8 only under major 6, and the offline minor
      only for a version-6 library. */
  predicate Admissible(k: Kind, major: nat, minor: nat) {
    ProfileStage(k) && 4 <= major <= 6 &&
    (minor <= 1 || (major == 6 && minor <= 8) ||
     (k == Library && major == 6 && minor == OfflineMinor))
  }

  function DigitChar(d: nat): (c: char)
    requires d <= 9
    ensures '0' <= c <= '9'
  {
    ('0' as int + d) as char
  }

  /** The minor token: a digit, or `x` for the offline minor. */
  function MinorChar(minor: nat): (c: char)
    requires minor <= 9 || minor == OfflineMinor
    ensures c == 'x' <==> minor == OfflineMinor
  {
    if minor == OfflineMinor then 'x' else DigitChar(minor)
  }

  /** The first letter of a profile name, which selects the stage. */
  function Initial(k: Kind): (c: char)
    requires ProfileStage(k)
    ensures c == GetKindName(k)[0]
  {
    match k
    case Pixel => 'p'
    case Vertex => 'v'
    case Geometry => 'g'
    case Hull => 'h'
    case Domain => 'd'
    case Compute => 'c'
    case Library => 'l'
    case Mesh => 'm'
    case Amplification => 'a'
  }

  /** The canonical spelling of an admissible triple, e.g. `ps_6_5` or
      `lib_6_x`. */
  function ProfileName(k: Kind, major: nat, minor: nat): (name: string)
    requires Admissible(k, major, minor)
  {
    if k == Library then ['l', 'i', 'b', '_', DigitChar(major), '_', MinorChar(minor)]
    else [Initial(k), 's', '_', DigitChar(major), '_', MinorChar(minor)]
  }

  /** A profile name is the stage's short name (ShaderModel::GetKindName),
      `_`, the major digit, `_` and the minor token. */
  lemma ProfileNameSpelling(k: Kind, major: nat, minor: nat)
    requires Admissible(k, major, minor)
    ensures ProfileName(k, major, minor) == GetKindName(k) + "_" + [DigitChar(major)] + "_" + [MinorChar(minor)]
  {
  }

  /** Where the major digit sits: after `?s_`, or after `lib_`. */
  function MajorPos(k: Kind): nat {
    if k == Library then 4 else 3
  }

  /** A profile name, character by character: a two-letter `?s` prefix (a
      three-letter `lib` prefix for Library), `_`, the major digit, `_`, the
      minor token, and nothing after it. */
  lemma ProfileNameChars(k: Kind, major: nat, minor: nat)
    requires Admissible(k, major, minor)
    ensures var n := ProfileName(k, major, minor);
      var p := MajorPos(k);
      |n| == p + 3 &&
      n[0] == Initial(k) &&
      (k == Library ==> n[1] == 'i' && n[2] == 'b' && n[3] == '_') &&
      (k != Library ==> n[1] == 's' && n[2] == '_') &&
      n[p] == DigitChar(major) && n[p + 1] == '_' && n[p + 2] == MinorChar(minor)
  {
  }

  /** Each profile stage has its own initial, so the first character fixes
      the stage. */
  lemma InitialInjective(a: Kind, b: Kind)
    requires ProfileStage(a) && ProfileStage(b)
    ensures Initial(a) == Initial(b) <==> a == b
  {
  }

  /** Distinct admissible triples have distinct names: a name decodes to at
      most one triple. */
  lemma ProfileNameInjective(k1: Kind, major1: nat, minor1: nat, k2: Kind, major2: nat, minor2: nat)
    requires Admissible(k1, major1, minor1) && Admissible(k2, major2, minor2)
    requires ProfileName(k1, major1, minor1) == ProfileName(k2, major2, minor2)
    ensures k1 == k2 && major1 == major2 && minor1 == minor2
  {
    ProfileNameChars(k1, major1, minor1);
    ProfileNameChars(k2, major2, minor2);
    InitialInjective(k1, k2);
  }
}
