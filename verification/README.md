# Shader-model registry (DirectX Shader Compiler, `DxilShaderModel.cpp`)

A Dafny model of the shader-model registry of the DirectX Shader Compiler.
The registry is a read-only table of target profiles (`ps_6_5`, `lib_6_x`,
…), each a stage kind, a major.minor version, a canonical name and some
resource limits, followed by an `invalid` sentinel. Around the table sit:

- `Get`: the lookup by (kind, major, minor). It packs the triple into a
  32-bit key and binary-searches a sorted key table (`hashToIdxMap`).
- `GetByName`: a hand-written parser for profile names, which hands the
  decoded triple to `Get`.
- The capability queries: `IsValid`, `IsValidForDxil`, the DXIL and
  minimum-validator versions, and `AllowDerivatives`.
- `operator==`.
- The name mappers for stage kinds and node launch types.

Modules, in dependency order:

- `ShaderKinds` (`kinds.dfy`): the stage enumeration, its ordinal, the short
  names and the attribute spellings.
- `NodeLaunchTypes` (`launch_types.dfy`): launch-type names and the
  case-insensitive lookup.
- `ProfileNames` (`profile_names.dfy`): the profile-name grammar. It says
  which triples have a name and how each name is spelled.
- `ShaderModels` (`shader_models.dfy`): the record type, the table and the
  key table, and the facts the lookup relies on. The key table is sorted.
  Each pair is (key of record j, j). The records are sorted by version and
  named canonically.
  - The table is written as one constant per stage, concatenated in the
    source's order. This only keeps each proof small.
- `Lookup` (`lookup.dfy`): `Get`, its packed key and its binary search.
- `NameParser` (`name_parser.dfy`): `GetByName`.
- `Capabilities` (`capabilities.dfy`): validity, versions, derivatives and
  equality.

Modelling choices:

- **Results are slot indices.** A pointer to a table entry is modelled as
  its index in `Table`, and `GetInvalid()` is the last index.
- **`Get` against a reference.** It is a method over the key table, proved
  equal to `ResolveIndex(Pack(...))`. That function uses a linear search
  (`FindKey`) as the reference for the binary search.
- **The packed key.** The key `(unsigned)Kind << 16 | Major << 8 | Minor` is
  computed in 32-bit unsigned arithmetic, with the shift truncated and the OR
  taken bit by bit. When major and minor are below 256 it equals
  `Ordinal * 65536 + major * 256 + minor`. Above that bound, distinct triples
  alias: asking for pixel model 0.1536 yields `ps_6_0`.
- **`GetByName` against a reference.** It is a method walking a cursor over
  the name, proved equal to `ByName`. `ByName` is defined independently: it
  looks up the admissible triple whose canonical spelling is the name, and
  yields the sentinel if there is none.

## Model

| member | source | states |
|---|---|---|
| ShaderKinds.KindNamesCoverKinds | lib/DXIL/DxilShaderModel.cpp:415-428 | the short-name array has one entry per kind, Invalid's being the last (the static_assert) |
| ShaderKinds.GetKindName | lib/DXIL/DxilShaderModel.cpp:425-430 | only Invalid is named "invalid" |
| ShaderKinds.FullNameFromKind | lib/DXIL/DxilShaderModel.cpp:456-495 | the attribute spelling is empty exactly for Library and Invalid |
| ShaderKinds.KindFromFullName | lib/DXIL/DxilShaderModel.cpp:436-454 | a recognised name is the spelling of the kind it yields; no name yields Library |
| ShaderKinds.FullNameRoundTrip | lib/DXIL/DxilShaderModel.cpp:436-495 | spelling then parsing gives back every kind except Library and Invalid, which come back as Invalid |
| ShaderKinds.FullNameParsesOnlySpellings | lib/DXIL/DxilShaderModel.cpp:436-495 | a name parses to a real kind exactly when it is that kind's spelling |
| NodeLaunchTypes.LaunchTypeNamesCoverTypes | lib/DXIL/DxilShaderModel.cpp:615-621 | Thread is the last entry of the name array (the static_assert) |
| NodeLaunchTypes.GetNodeLaunchTypeName | lib/DXIL/DxilShaderModel.cpp:615-623 | every launch-type name is lower case |
| NodeLaunchTypes.ToLower | lib/DXIL/DxilShaderModel.cpp:627 | ASCII lower-casing keeps the length and lower-cases each character |
| NodeLaunchTypes.ToLowerIdempotent | lib/DXIL/DxilShaderModel.cpp:627 | lower-casing twice is lower-casing once |
| NodeLaunchTypes.NodeLaunchTypeFromName | lib/DXIL/DxilShaderModel.cpp:625-631 | a recognised name, lower-cased, is the name of the type it yields |
| NodeLaunchTypes.LaunchTypeNameRoundTrip | lib/DXIL/DxilShaderModel.cpp:615-631 | name then lookup gives back each of the four launch types |
| NodeLaunchTypes.LaunchTypeLookupIgnoresCase | lib/DXIL/DxilShaderModel.cpp:625-631 | a name and its lower-cased form yield the same launch type |
| NodeLaunchTypes.LaunchTypeLookupMatchesName | lib/DXIL/DxilShaderModel.cpp:625-631 | the lookup yields a real type exactly when the lower-cased name is that type's name |
| ProfileNames.MinorChar | lib/DXIL/DxilShaderModel.cpp:307-312 | the minor token is `x` exactly for the offline minor |
| ProfileNames.Initial | lib/DXIL/DxilShaderModel.cpp:193-222 | a stage's initial is the first letter of its short name |
| ProfileNames.ProfileNameSpelling | lib/DXIL/DxilShaderModel.cpp:513-611 | a profile name is the short name, `_`, the major digit, `_`, the minor token |
| ProfileNames.ProfileNameChars | lib/DXIL/DxilShaderModel.cpp:224-317 | a profile name character by character: the prefix, the major at position 3 (4 for `lib`), `_`, the minor, nothing after |
| ProfileNames.InitialInjective | lib/DXIL/DxilShaderModel.cpp:193-222 | the first character fixes the stage |
| ProfileNames.ProfileNameInjective | lib/DXIL/DxilShaderModel.cpp:186-321 | distinct admissible triples have distinct names |
| ShaderModels.ProfilesWellFormed | lib/DXIL/DxilShaderModel.cpp:80-173 | each key pair is (key of its record, its index); the keys ascend; every record is canonical |
| ShaderModels.KeyTableStrictlyIncreasing | lib/DXIL/DxilShaderModel.cpp:80-178 | the key table's keys are strictly increasing, as lower_bound needs |
| ShaderModels.TableShape | lib/DXIL/DxilShaderModel.cpp:513-613 | 92 slots, the sentinel last, one key pair per profile |
| ShaderModels.ProfilesAreCanonical | lib/DXIL/DxilShaderModel.cpp:513-611 | every profile is an admissible triple with its canonical name; only a version-6 library has the offline minor |
| ShaderModels.KeyTableAgrees | lib/DXIL/DxilShaderModel.cpp:80-174 | pair j of the key table is (the packed key of record j, j) |
| ShaderModels.KeyOrderIsVersionOrder | lib/DXIL/DxilShaderModel.cpp:174 | for admissible triples, key order is (kind, major, minor) order and equal keys mean equal triples |
| ShaderModels.TableSortedByVersion | lib/DXIL/DxilShaderModel.cpp:610-611 | the records before the sentinel are strictly sorted by kind, then major, then minor |
| ShaderModels.NamesStartWithKindName | lib/DXIL/DxilShaderModel.cpp:415-421 | every record's name starts with its kind's short name; the sentinel's is "invalid" |
| Lookup.ShiftLeft | lib/DXIL/DxilShaderModel.cpp:174 | a shift that does not overflow 32 bits multiplies by a power of two |
| Lookup.BitOrDisjoint | lib/DXIL/DxilShaderModel.cpp:174 | OR of a multiple of 2^n and a number below 2^n is their sum |
| Lookup.PackBitsBounded | lib/DXIL/DxilShaderModel.cpp:174 | the packed key fits in 32 bits for any fields |
| Lookup.PackBitsArithmetic | lib/DXIL/DxilShaderModel.cpp:174 | with major and minor below 256 the packed key is ordinal·65536 + major·256 + minor |
| Lookup.Pack | lib/DXIL/DxilShaderModel.cpp:174 | the packed key is an unsigned 32-bit value, the arithmetic key for small fields |
| Lookup.FindKey | lib/DXIL/DxilShaderModel.cpp:175-181 | linear search: a hit is a position holding the key; a miss means no position holds it |
| Lookup.GetInvalid | lib/DXIL/DxilShaderModel.cpp:432-434 | the sentinel is the last slot and holds the Invalid record |
| Lookup.ResolveIndex | lib/DXIL/DxilShaderModel.cpp:175-183 | a key resolves to the sentinel exactly when the key table lacks it, and otherwise to a record with that key |
| Lookup.LowerBound | lib/DXIL/DxilShaderModel.cpp:175-178 | lower_bound: every key before the result is below the target, every key from it on is not |
| Lookup.LowerBoundDecides | lib/DXIL/DxilShaderModel.cpp:179-181 | in ascending keys the target is present exactly when it sits at lower_bound's position |
| Lookup.Get | lib/DXIL/DxilShaderModel.cpp:77-184 | the binary search yields what the linear reference resolves the packed key to |
| Lookup.GetFindsEveryProfile | lib/DXIL/DxilShaderModel.cpp:77-184 | looking up a record's own (kind, major, minor) yields that record |
| Lookup.GetIsExact | lib/DXIL/DxilShaderModel.cpp:77-184 | with fields below 256, the lookup yields the record with that triple, or the sentinel exactly when there is none |
| Lookup.PackAliasesWideMinor | lib/DXIL/DxilShaderModel.cpp:174 | the packed keys of (Pixel, 0, 1536) and (Pixel, 6, 0) coincide |
| Lookup.GetAliasesWideMinor | lib/DXIL/DxilShaderModel.cpp:174-183 | looking up (Pixel, 0, 1536) yields ps_6_0 |
| NameParser.At | lib/DXIL/DxilShaderModel.cpp:226-252 | a read inside the name gives its character, a read past the end gives NUL |
| NameParser.Decode | lib/DXIL/DxilShaderModel.cpp:186-321 | a name decodes exactly when some admissible triple is spelled so, and then to such a triple |
| NameParser.DecodeProfileName | lib/DXIL/DxilShaderModel.cpp:186-321 | a profile name decodes to its own triple |
| NameParser.ByNameOfProfileName | lib/DXIL/DxilShaderModel.cpp:318-320 | the lookup by a profile name is Get of its triple |
| NameParser.StageOfInitial | lib/DXIL/DxilShaderModel.cpp:193-222 | the first-character switch yields the stage with that initial, or none when no stage has it |
| NameParser.MajorOfDigit | lib/DXIL/DxilShaderModel.cpp:235-247 | the major switch accepts exactly `4`, `5`, `6`, as their digit values |
| NameParser.MinorOfToken | lib/DXIL/DxilShaderModel.cpp:251-315 | the minor switch accepts exactly the tokens of admissible triples under that stage and major |
| NameParser.ReadProfileName | lib/DXIL/DxilShaderModel.cpp:186-318 | the cursor walk yields the decoded triple of the name, or none exactly when no admissible triple is spelled so |
| NameParser.GetByName | lib/DXIL/DxilShaderModel.cpp:186-321 | the result is the lookup by name: Get of the spelled triple, else the sentinel |
| NameParser.RejectInitial | lib/DXIL/DxilShaderModel.cpp:189-222 | an empty name, or one starting with no stage letter, names no profile |
| NameParser.RejectAfterInitial | lib/DXIL/DxilShaderModel.cpp:224-232 | a name without `s_` (`ib_` for a library) after the stage letter names no profile |
| NameParser.RejectMajor | lib/DXIL/DxilShaderModel.cpp:235-247 | a major token other than 4, 5, 6 names no profile |
| NameParser.RejectSeparator | lib/DXIL/DxilShaderModel.cpp:248-249 | a major digit not followed by `_` names no profile |
| NameParser.RejectMinor | lib/DXIL/DxilShaderModel.cpp:251-315 | a minor token that the stage and major do not admit names no profile |
| NameParser.RejectTrailing | lib/DXIL/DxilShaderModel.cpp:316-318 | text after the minor token names no profile |
| NameParser.AcceptComplete | lib/DXIL/DxilShaderModel.cpp:224-320 | a name that passes every step is the spelling of the decoded triple |
| NameParser.TableNameDecodes | lib/DXIL/DxilShaderModel.cpp:513-611 | every profile's name decodes to its own triple |
| NameParser.ByNameRoundTrip | lib/DXIL/DxilShaderModel.cpp:186-321 | every profile is found under its own name |
| NameParser.ByNameResultIsNamed | lib/DXIL/DxilShaderModel.cpp:318-320 | the lookup by name yields the sentinel or a profile of that name |
| NameParser.ByNameFindsNamedProfile | lib/DXIL/DxilShaderModel.cpp:186-321 | the lookup by name finds a profile exactly when the table has one of that name |
| NameParser.AbsentProfileIsInvalid | lib/DXIL/DxilShaderModel.cpp:318-320 | `hs_4_0` is well formed but yields the sentinel |
| NameParser.NoVersion4Hull | lib/DXIL/DxilShaderModel.cpp:556 | the table has no (Hull, 4, 0) record |
| NameParser.TrailingTextRejected | lib/DXIL/DxilShaderModel.cpp:316-318 | `ps_6_0_0` and `lib_6_2x` yield the sentinel |
| NameParser.OfflineLibraryName | lib/DXIL/DxilShaderModel.cpp:307-312 | `lib_6_x` decodes to (Library, 6, offline minor) and finds slot 82 |
| Capabilities.IsValid | lib/DXIL/DxilShaderModel.cpp:40-45 | under the kind assertion, a record is valid exactly when its kind is a profile stage; ValidityOverTable: over the table, exactly the slots other than the sentinel |
| Capabilities.IsValidForDxil | lib/DXIL/DxilShaderModel.cpp:47-75 | valid for DXIL exactly when the record is a valid, admissible version-6 triple (minor 0 to 8, or the offline minor on a library); ValidityOverTable: over the table, exactly the version-6 profiles |
| Capabilities.DxilVersion | lib/DXIL/DxilShaderModel.cpp:323-365 | the DXIL version has major 1 and, for a DXIL-valid minor, is at most the highest DXIL version 1.8 |
| Capabilities.ValidatorVersion | lib/DXIL/DxilShaderModel.cpp:367-413 | the validator version is 0.0 exactly for the offline minor, otherwise of major 1 |
| Capabilities.IsSM66Plus | lib/DXIL/DxilShaderModel.cpp:507 | assumed header definition: (major, minor) at least (6, 6); under major 6 exactly from minor 6, never below major 6 |
| Capabilities.AllowDerivatives | lib/DXIL/DxilShaderModel.cpp:497-509 | pixel, library and node always; compute, amplification and mesh exactly under SM 6.6 or later; no other stage; AllowDerivativesMonotone and ComputeDerivativesStartAt66 prove it never lost on a newer model and starting at cs_6_6 |
| Capabilities.GetDxilVersion | lib/DXIL/DxilShaderModel.cpp:323-365 | DXIL version 1.minor, or the highest (1.8) for the offline minor |
| Capabilities.GetMinValidatorVersion | lib/DXIL/DxilShaderModel.cpp:367-413 | validator version 1.minor, or 0.0 for the offline minor |
| Capabilities.ValidityOverTable | lib/DXIL/DxilShaderModel.cpp:40-75 | over the table, IsValid holds exactly off the sentinel, and IsValidForDxil exactly for the version-6 profiles |
| Capabilities.ValidatorNotAboveDxil | lib/DXIL/DxilShaderModel.cpp:323-413 | the validator version never exceeds the DXIL version; they differ only on the offline minor |
| Capabilities.OfflineProfileHasHighestDxil | lib/DXIL/DxilShaderModel.cpp:357 | `lib_6_x` reports a DXIL version no DXIL-valid record exceeds, and validator 0.0 |
| Capabilities.AllowDerivativesMonotone | lib/DXIL/DxilShaderModel.cpp:497-509 | a newer shader model never takes derivatives away |
| Capabilities.ComputeDerivativesStartAt66 | lib/DXIL/DxilShaderModel.cpp:497-509 | over the compute profiles, derivatives are allowed exactly from cs_6_6 on |
| Capabilities.Equals | lib/DXIL/DxilShaderModel.cpp:31-38 | field-by-field comparison is equality of records |
| Capabilities.TableEntriesDistinct | lib/DXIL/DxilShaderModel.cpp:31-38 | no two table slots hold equal records |

## Left out

- Assertions (`DXASSERT`, `llvm_unreachable`) become preconditions: the kind check at the head of `IsValid` and the DXIL-validity check of both version queries. The unreachable default of `FullNameFromKind` disappears, since the match covers every kind.
- The header `DxilShaderModel.h` is not part of this model. From it the model assumes:
  - the kind enumeration order, taken from the short-name array;
  - `kOfflineMinor` = 15 (`0xF`);
  - `kNumShaderModels` = 92, the length the initializer list of the table determines (91 profiles and the sentinel), on which `GetInvalid` depends;
  - `IsSM66Plus` as "(major, minor) at least (6, 6)";
  - the `Is*` stage predicates as tests of the kind.
- The constructor's "has UAVs" argument is accepted by the source but never stored. The record therefore has no such field, and `operator==` cannot compare it.
- `operator==` compares names with `strcmp`, that is by their NUL-terminated contents. The model uses sequence equality, which agrees with `strcmp` for names without an embedded NUL, as every table name is.
- `llvm::StringRef`, `StringSwitch` and `lower()` become operations on `seq<char>` with ASCII lower-casing.
- Past-the-end reads in `GetByName`:
  - The source reads `Name[1]`, `Name[2]`, `Name[3]` and the cursor positions without a bounds check. In the model such a read yields NUL, which never matches, so the name is rejected.
  - What a build with LLVM's assertions does (abort), or what an unchecked read of adjacent memory could yield, is not modelled.
- `GetByName` is split in two:
  - `ReadProfileName` holds the reading steps and returns None where the source returns the sentinel.
  - `GetByName` passes the decoded triple to `Get`.

  The observable result is the same.
- The per-record accessors declared in the header (register counts and others) are plain field reads. The table's field values are modelled but not queried.
- The `Semantic` typedef and the generator markers carry no behaviour.
