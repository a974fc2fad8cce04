/** ShaderModel::GetByName: reading a profile name such as `ps_6_5` or
    `lib_6_x` with a cursor, then looking the decoded triple up with Get. */
module NameParser {
  import opened ShaderKinds
  import opened ProfileNames
  import opened ShaderModels
  import opened Lookup

  /** The character at `i`, or NUL past the end: the name is read without
      bounds checks, and a position past the end never matches. */
  function At(s: string, i: nat): (c: char)
    ensures i < |s| ==> c == s[i]
    ensures i >= |s| ==> c == 0 as char
  {
    if i < |s| then s[i] else 0 as char
  }

  /** Some admissible triple is spelled `name`. */
  ghost predicate Named(name: string) {
    exists k: Kind, major: nat, minor: nat :: Admissible(k, major, minor) && ProfileName(k, major, minor) == name
  }

  /** The triple a name spells, if any. Profile names are unambiguous
      (ProfileNameInjective), so there is at most one. */
  ghost function Decode(name: string): (r: Option<(Kind, nat, nat)>)
    ensures r.Some? <==> Named(name)
    ensures r.Some? ==> Admissible(r.value.0, r.value.1, r.value.2) && ProfileName(r.value.0, r.value.1, r.value.2) == name
  {
    if Named(name) then
      var k: Kind, major: nat, minor: nat :| Admissible(k, major, minor) && ProfileName(k, major, minor) == name;
      Some((k, major, minor))
    else
      None
  }

  /** Decoding a profile name gives back its triple. */
  lemma DecodeProfileName(k: Kind, major: nat, minor: nat)
    requires Admissible(k, major, minor)
    ensures Decode(ProfileName(k, major, minor)) == Some((k, major, minor))
  {
    var r := Decode(ProfileName(k, major, minor));
    ProfileNameInjective(r.value.0, r.value.1, r.value.2, k, major, minor);
  }

  /** What the lookup by name means: the entry Get yields for the triple
      spelled `name`, or the sentinel when no admissible triple is spelled
      so. */
  ghost function ByName(name: string): (i: nat)
    ensures i < |Table|
  {
    match Decode(name)
    case Some((k, major, minor)) => ResolveIndex(Pack(k, major, minor))
    case None => GetInvalid()
  }

  /** A name spelled by an admissible triple looks that triple up. */
  lemma ByNameOfProfileName(k: Kind, major: nat, minor: nat)
    requires Admissible(k, major, minor)
    ensures ByName(ProfileName(k, major, minor)) == ResolveIndex(Pack(k, major, minor))
  {
    DecodeProfileName(k, major, minor);
  }

  /** The reading half of ShaderModel::GetByName. The cursor `idx` walks
      the name: the stage letter, the `s_` (or `ib_` for a library) that
      must follow it, the major digit (4 to 6), `_`, the minor token (0 or
      1; 2 to 8 only under major 6; `x` only for a version-6 library), and
      then the end of the name. A failed step gives None, where the source
      returns the sentinel; a complete name gives its triple. */
  method ReadProfileName(name: string) returns (r: Option<(Kind, nat, nat)>)
    ensures r == Decode(name)
  {
    if |name| == 0 {
      RejectInitial(name);
      return None;
    }
    var stage := StageOfInitial(name[0]);
    if stage.None? {
      RejectInitial(name);
      return None;
    }
    var kind := stage.value;
    var idx: nat := 3;
    if kind != Library {
      if At(name, 1) != 's' || At(name, 2) != '_' {
        RejectAfterInitial(name, kind);
        return None;
      }
    } else {
      if At(name, 1) != 'i' || At(name, 2) != 'b' || At(name, 3) != '_' {
        RejectAfterInitial(name, kind);
        return None;
      }
      idx := 4;
    }

    var majorToken := MajorOfDigit(At(name, idx));
    idx := idx + 1;
    if majorToken.None? {
      RejectMajor(name, kind);
      return None;
    }
    var major := majorToken.value;
    if At(name, idx) != '_' {
      RejectSeparator(name, kind);
      return None;
    }
    idx := idx + 1;

    var minorToken := MinorOfToken(kind, major, At(name, idx));
    idx := idx + 1;
    if minorToken.None? {
      RejectMinor(name, kind, major);
      return None;
    }
    var minor := minorToken.value;

    // Nothing may follow the minor token.
    if |name| > idx {
      RejectTrailing(name, kind, major, minor);
      return None;
    }
    AcceptComplete(name, kind, major, minor);
    DecodeProfileName(kind, major, minor);
    r := Some((kind, major, minor));
  }

  /** ShaderModel::GetByName: read the name, then look the triple up with
      Get; a name that does not read yields the sentinel, and so does a
      well-formed name the table lacks. */
  method GetByName(name: string) returns (index: nat)
    ensures index == ByName(name)
  {
    var triple := ReadProfileName(name);
    match triple
    case None =>
      index := GetInvalid();
    case Some((kind, major, minor)) =>
      index := Get(kind, major, minor);
  }

  /** The stage a profile name's first character selects. */
  function StageOfInitial(c: char): (r: Option<Kind>)
    ensures r.Some? ==> ProfileStage(r.value) && Initial(r.value) == c
    ensures r.None? ==> forall k :: ProfileStage(k) ==> Initial(k) != c
  {
    match c
    case 'p' => Some(Pixel)
    case 'v' => Some(Vertex)
    case 'g' => Some(Geometry)
    case 'h' => Some(Hull)
    case 'd' => Some(Domain)
    case 'c' => Some(Compute)
    case 'l' => Some(Library)
    case 'm' => Some(Mesh)
    case 'a' => Some(Amplification)
    case _ => None
  }

  /** The major version a major token stands for: 4, 5 or 6. */
  function MajorOfDigit(c: char): (r: Option<nat>)
    ensures r.Some? <==> c == '4' || c == '5' || c == '6'
    ensures r.Some? ==> 4 <= r.value <= 6 && DigitChar(r.value) == c
  {
    match c
    case '4' => Some(4)
    case '5' => Some(5)
    case '6' => Some(6)
    case _ => None
  }

  /** The minor version a minor token stands for under a stage and major:
      0 and 1 always, 2 to 8 only under major 6, `x` (the offline minor)
      only for a version-6 library. It is exactly the token of an admissible
      triple. */
  function MinorOfToken(kind: Kind, major: nat, c: char): (r: Option<nat>)
    requires ProfileStage(kind) && 4 <= major <= 6
    ensures r.Some? ==> Admissible(kind, major, r.value) && MinorChar(r.value) == c
    ensures r.None? ==> forall minor: nat :: Admissible(kind, major, minor) ==> MinorChar(minor) != c
  {
    if c == '0' then Some(0)
    else if c == '1' then Some(1)
    else if '2' <= c <= '8' then
      if major == 6 then Some(c as int - '0' as int) else None
    else if c == 'x' then
      if kind == Library && major == 6 then Some(OfflineMinor) else None
    else None
  }

  /** A name that is empty or starts with no stage letter names no
      profile. */
  lemma RejectInitial(name: string)
    requires forall k :: ProfileStage(k) ==> At(name, 0) != Initial(k)
    ensures !Named(name)
  {
    forall k: Kind, major: nat, minor: nat | Admissible(k, major, minor)
      ensures ProfileName(k, major, minor) != name
    {
      ProfileNameChars(k, major, minor);
    }
  }

  /** The prefix after the stage letter is wrong: no profile has this name. */
  lemma RejectAfterInitial(name: string, kind: Kind)
    requires ProfileStage(kind) && |name| > 0 && name[0] == Initial(kind)
    requires kind != Library ==> At(name, 1) != 's' || At(name, 2) != '_'
    requires kind == Library ==> At(name, 1) != 'i' || At(name, 2) != 'b' || At(name, 3) != '_'
    ensures !Named(name)
  {
    forall k: Kind, major: nat, minor: nat | Admissible(k, major, minor)
      ensures ProfileName(k, major, minor) != name
    {
      ProfileNameChars(k, major, minor);
      InitialInjective(k, kind);
    }
  }

  /** A correct prefix for `kind`. */
  predicate PrefixOk(name: string, kind: Kind)
    requires ProfileStage(kind)
  {
    |name| > 0 && name[0] == Initial(kind) &&
    (kind != Library ==> At(name, 1) == 's' && At(name, 2) == '_') &&
    (kind == Library ==> At(name, 1) == 'i' && At(name, 2) == 'b' && At(name, 3) == '_')
  }

  /** A name with a correct prefix names a profile of that stage, if any. */
  lemma PrefixFixesStage(name: string, kind: Kind, k: Kind, major: nat, minor: nat)
    requires ProfileStage(kind) && PrefixOk(name, kind)
    requires Admissible(k, major, minor) && ProfileName(k, major, minor) == name
    ensures k == kind
  {
    ProfileNameChars(k, major, minor);
    InitialInjective(k, kind);
  }

  /** The major token is not 4, 5 or 6. */
  lemma RejectMajor(name: string, kind: Kind)
    requires ProfileStage(kind) && PrefixOk(name, kind)
    requires At(name, MajorPos(kind)) != '4' && At(name, MajorPos(kind)) != '5' && At(name, MajorPos(kind)) != '6'
    ensures !Named(name)
  {
    forall k: Kind, major: nat, minor: nat | Admissible(k, major, minor)
      ensures ProfileName(k, major, minor) != name
    {
      ProfileNameChars(k, major, minor);
      if ProfileName(k, major, minor) == name {
        PrefixFixesStage(name, kind, k, major, minor);
      }
    }
  }

  /** The major digit is not followed by `_`. */
  lemma RejectSeparator(name: string, kind: Kind)
    requires ProfileStage(kind) && PrefixOk(name, kind)
    requires At(name, MajorPos(kind) + 1) != '_'
    ensures !Named(name)
  {
    forall k: Kind, major': nat, minor: nat | Admissible(k, major', minor)
      ensures ProfileName(k, major', minor) != name
    {
      ProfileNameChars(k, major', minor);
      if ProfileName(k, major', minor) == name {
        PrefixFixesStage(name, kind, k, major', minor);
      }
    }
  }

  /** The minor token is not one this stage and major admit. */
  lemma RejectMinor(name: string, kind: Kind, major: nat)
    requires ProfileStage(kind) && PrefixOk(name, kind) && 4 <= major <= 6
    requires At(name, MajorPos(kind)) == DigitChar(major)
    requires forall minor: nat :: Admissible(kind, major, minor) ==> At(name, MajorPos(kind) + 2) != MinorChar(minor)
    ensures !Named(name)
  {
    forall k: Kind, major': nat, minor: nat | Admissible(k, major', minor)
      ensures ProfileName(k, major', minor) != name
    {
      ProfileNameChars(k, major', minor);
      if ProfileName(k, major', minor) == name {
        PrefixFixesStage(name, kind, k, major', minor);
      }
    }
  }

  /** Something follows the minor token. */
  lemma RejectTrailing(name: string, kind: Kind, major: nat, minor: nat)
    requires Admissible(kind, major, minor) && PrefixOk(name, kind)
    requires |name| > MajorPos(kind) + 3
    ensures !Named(name)
  {
    forall k: Kind, major': nat, minor': nat | Admissible(k, major', minor')
      ensures ProfileName(k, major', minor') != name
    {
      ProfileNameChars(k, major', minor');
      if ProfileName(k, major', minor') == name {
        PrefixFixesStage(name, kind, k, major', minor');
      }
    }
  }

  /** A name that passed every step is the spelling of the decoded triple. */
  lemma AcceptComplete(name: string, kind: Kind, major: nat, minor: nat)
    requires Admissible(kind, major, minor) && PrefixOk(name, kind)
    requires At(name, MajorPos(kind)) == DigitChar(major)
    requires At(name, MajorPos(kind) + 1) == '_'
    requires At(name, MajorPos(kind) + 2) == MinorChar(minor)
    requires |name| <= MajorPos(kind) + 3
    ensures ProfileName(kind, major, minor) == name
  {
    ProfileNameChars(kind, major, minor);
    var n := ProfileName(kind, major, minor);
    assert |name| == |n|;
    forall i | 0 <= i < |n| ensures name[i] == n[i] {
    }
  }

  /** Every profile is found under its own name, `lib_6_x` included. */
  lemma ByNameRoundTrip(i: nat)
    requires i < |Table| - 1
    ensures ByName(Table[i].name) == i
  {
    ProfilesAreCanonical();
    var e := Table[i];
    ByNameOfProfileName(e.kind, e.major, e.minor);
    GetFindsEveryProfile(i);
  }

  /** The name of every profile decodes to the profile's own triple. */
  lemma TableNameDecodes(i: nat)
    requires i < |Table| - 1
    ensures Decode(Table[i].name) == Some((Table[i].kind, Table[i].major, Table[i].minor))
  {
    ProfilesAreCanonical();
    DecodeProfileName(Table[i].kind, Table[i].major, Table[i].minor);
  }

  /** What the lookup by name yields is the sentinel or a profile of that
      name. */
  lemma ByNameResultIsNamed(name: string)
    ensures ByName(name) != GetInvalid() ==> Table[ByName(name)].name == name
  {
    match Decode(name)
    case None =>
    case Some((k, major, minor)) =>
      GetIsExact(k, major, minor);
      var r := ByName(name);
      if r != GetInvalid() {
        TableNameDecodes(r);
      }
  }

  /** The lookup by name finds a profile exactly when the table has one of
      that name. */
  lemma ByNameFindsNamedProfile(name: string)
    ensures ByName(name) != GetInvalid() <==> exists i :: 0 <= i < |Table| - 1 && Table[i].name == name
  {
    if i :| 0 <= i < |Table| - 1 && Table[i].name == name {
      ByNameRoundTrip(i);
    } else {
      ByNameResultIsNamed(name);
    }
  }

  /** `hs_4_0` is well formed but there is no version-4 hull shader, so the
      lookup yields the sentinel. */
  lemma AbsentProfileIsInvalid()
    ensures Named("hs_4_0") && ByName("hs_4_0") == GetInvalid()
  {
    assert ProfileName(Hull, 4, 0) == "hs_4_0";
    ByNameOfProfileName(Hull, 4, 0);
    NoVersion4Hull();
    GetIsExact(Hull, 4, 0);
  }

  /** The hull-shader profiles start at version 5.0: the table has no
      (Hull, 4, 0) record. */
  lemma NoVersion4Hull()
    ensures forall i :: 0 <= i < |Table| - 1 ==> !(Table[i].kind == Hull && Table[i].major == 4 && Table[i].minor == 0)
  {
    TableSortedByVersion();
    assert Table[38] == GeometryModels[12];
    assert Table[39] == HullModels[0];
    forall i | 0 <= i < |Table| - 1
      ensures !(Table[i].kind == Hull && Table[i].major == 4 && Table[i].minor == 0)
    {
      if i < 38 {
        assert VersionBefore(Table[i], Table[38]);
      } else if i > 39 {
        assert VersionBefore(Table[39], Table[i]);
      }
    }
  }

  /** Text after the minor token is refused: `ps_6_0_0` and `lib_6_2x`
      yield the sentinel. */
  lemma TrailingTextRejected()
    ensures ByName("ps_6_0_0") == GetInvalid() && ByName("lib_6_2x") == GetInvalid()
  {
    RejectTrailing("ps_6_0_0", Pixel, 6, 0);
    RejectTrailing("lib_6_2x", Library, 6, 2);
  }

  /** `lib_6_x` decodes to the offline library profile and finds it. */
  lemma OfflineLibraryName()
    ensures Decode("lib_6_x") == Some((Library, 6, OfflineMinor)) && ByName("lib_6_x") == 82
  {
    assert ProfileName(Library, 6, OfflineMinor) == "lib_6_x";
    DecodeProfileName(Library, 6, OfflineMinor);
    TableShape();
    assert Table[82] == LibraryModels[8];
    ByNameRoundTrip(82);
  }
}
