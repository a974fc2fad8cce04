/** Node launch types and their names; names are matched without regard to
    ASCII case. */
module NodeLaunchTypes {

  datatype NodeLaunchType = Invalid | Broadcasting | Coalescing | Thread

  /** The names, indexed by the launch type's ordinal. */
  const NodeLaunchTypeNames: seq<string> := ["invalid", "broadcasting", "coalescing", "thread"]

  function LaunchOrdinal(t: NodeLaunchType): (n: nat)
    ensures n < |NodeLaunchTypeNames|
  {
    match t
    case Invalid => 0
    case Broadcasting => 1
    case Coalescing => 2
    case Thread => 3
  }

  /** The name array has one entry per launch type, Thread being the last
      (the source's static_assert). */
  lemma LaunchTypeNamesCoverTypes()
    ensures LaunchOrdinal(Thread) == |NodeLaunchTypeNames| - 1
  {
  }

  /** ShaderModel::GetNodeLaunchTypeName: the name of a launch type, which
      is already lower case. */
  function GetNodeLaunchTypeName(t: NodeLaunchType): (name: string)
    ensures forall i :: 0 <= i < |name| ==> 'a' <= name[i] <= 'z'
  {
    NodeLaunchTypeNames[LaunchOrdinal(t)]
  }

  /** ASCII lower-casing of one character; every other character is kept. */
  function LowerChar(c: char): (d: char)
    ensures 'A' <= c <= 'Z' ==> d as int == c as int + 32
    ensures !('A' <= c <= 'Z') ==> d == c
    ensures !('A' <= d <= 'Z')
  {
    if 'A' <= c <= 'Z' then (c as int + 32) as char else c
  }

  /** ASCII lower-casing of a string, character by character. */
  function ToLower(s: string): (r: string)
    ensures |r| == |s|
    ensures forall i :: 0 <= i < |s| ==> r[i] == LowerChar(s[i])
  {
    if s == [] then [] else [LowerChar(s[0])] + ToLower(s[1..])
  }

  /** A string without upper-case letters is its own lower-cased form. */
  lemma LowerCaseIsFixed(s: string)
    requires forall i :: 0 <= i < |s| ==> !('A' <= s[i] <= 'Z')
    ensures ToLower(s) == s
  {
    assert forall i :: 0 <= i < |s| ==> ToLower(s)[i] == s[i];
  }

  /** Lower-casing twice is lower-casing once. */
  lemma {:induction false} ToLowerIdempotent(s: string)
    ensures ToLower(ToLower(s)) == ToLower(s)
  {
    if s != [] {
      ToLowerIdempotent(s[1..]);
      assert ToLower(s)[1..] == ToLower(s[1..]);
    }
  }

  /** ShaderModel::NodeLaunchTypeFromName: lower-case the name, then match it
      against the three real launch-type names; anything else is Invalid. */
  function NodeLaunchTypeFromName(name: string): (t: NodeLaunchType)
    ensures t != Invalid ==> ToLower(name) == GetNodeLaunchTypeName(t)
  {
    var lower := ToLower(name);
    if lower == "broadcasting" then Broadcasting
    else if lower == "coalescing" then Coalescing
    else if lower == "thread" then Thread
    else Invalid
  }

  /** Every launch type survives the trip through its name, Invalid included
      ("invalid" matches none of the three real names). */
  lemma LaunchTypeNameRoundTrip(t: NodeLaunchType)
    ensures NodeLaunchTypeFromName(GetNodeLaunchTypeName(t)) == t
  {
    LowerCaseIsFixed(GetNodeLaunchTypeName(t));
  }

  /** The lookup ignores case: a name and its lower-cased form give the same
      launch type. */
  lemma LaunchTypeLookupIgnoresCase(name: string)
    ensures NodeLaunchTypeFromName(ToLower(name)) == NodeLaunchTypeFromName(name)
  {
    ToLowerIdempotent(name);
  }

  /** Any spelling whose lower-cased form is a real launch-type name yields
      that type, and only such spellings do. */
  lemma LaunchTypeLookupMatchesName(name: string, t: NodeLaunchType)
    requires t != Invalid
    ensures NodeLaunchTypeFromName(name) == t <==> ToLower(name) == GetNodeLaunchTypeName(t)
  {
    LowerCaseIsFixed(GetNodeLaunchTypeName(t));
  }
}
