/** ShaderModel::Get: from (kind, major, minor) to a table entry, through a
    packed key and a binary search of the key table. A table entry is
    identified by its index; a failed lookup yields the sentinel's index. */
module Lookup {
  import opened ShaderKinds
  import opened ProfileNames
  import opened ShaderModels

  datatype Option<T> = None | Some(value: T)

  function Pow2(n: nat): (p: nat)
    ensures p >= 1
  {
    if n == 0 then 1 else 2 * Pow2(n - 1)
  }

  lemma {:induction false} Pow2Add(m: nat, n: nat)
    ensures Pow2(m + n) == Pow2(m) * Pow2(n)
    decreases m
  {
    if m > 0 {
      Pow2Add(m - 1, n);
    }
  }

  lemma Pow2Values()
    ensures Pow2(8) == 256 && Pow2(16) == 65536 && Pow2(32) == 0x1_0000_0000
  {
    assert Pow2(4) == 16;
    assert Pow2(8) == 256;
    Pow2Add(8, 8);
    Pow2Add(16, 16);
  }

  /** `x << n` on a 32-bit unsigned: the bits shifted past bit 31 are lost. */
  function ShiftLeft(x: Unsigned, n: nat): (r: Unsigned)
    ensures x * Pow2(n) < 0x1_0000_0000 ==> r == x * Pow2(n)
  {
    (x * Pow2(n)) % 0x1_0000_0000
  }

  /** Bitwise OR of two naturals, one binary digit at a time. */
  function BitOr(a: nat, b: nat): (r: nat)
    ensures a <= r && b <= r
    decreases a + b
  {
    if a == 0 then b
    else if b == 0 then a
    else 2 * BitOr(a / 2, b / 2) + (if a % 2 == 1 || b % 2 == 1 then 1 else 0)
  }

  /** OR-ing a multiple of 2^n with a number below 2^n adds them: their set
      bits do not overlap. */
  lemma {:induction false} BitOrDisjoint(a: nat, q: nat, b: nat, n: nat)
    requires a == q * Pow2(n) && b < Pow2(n)
    ensures BitOr(a, b) == a + b
    decreases n
  {
    if n == 0 {
      assert b == 0;
    } else {
      var p := Pow2(n - 1);
      assert a == 2 * (q * p);
      if a != 0 && b != 0 {
        assert a / 2 == q * p && a % 2 == 0;
        BitOrDisjoint(a / 2, q, b / 2, n - 1);
      }
    }
  }

  /** OR keeps numbers below a power of two. */
  lemma {:induction false} BitOrBounded(a: nat, b: nat, n: nat)
    requires a < Pow2(n) && b < Pow2(n)
    ensures BitOr(a, b) < Pow2(n)
    decreases n
  {
    if a != 0 && b != 0 {
      BitOrBounded(a / 2, b / 2, n - 1);
    }
  }

  /** The packed key as the source computes it, before it is known to fit. */
  function PackBits(k: Kind, major: Unsigned, minor: Unsigned): nat {
    BitOr(BitOr(ShiftLeft(Ordinal(k), 16), ShiftLeft(major, 8)), minor)
  }

  /** The packed key fits in 32 bits whatever the fields. */
  lemma PackBitsBounded(k: Kind, major: Unsigned, minor: Unsigned)
    ensures PackBits(k, major, minor) < 0x1_0000_0000
  {
    Pow2Values();
    var kindBits, majorBits := ShiftLeft(Ordinal(k), 16), ShiftLeft(major, 8);
    BitOrBounded(kindBits, majorBits, 32);
    BitOrBounded(BitOr(kindBits, majorBits), minor, 32);
  }

  /** With fields below 256 nothing is shifted out and no bits overlap, so
      the packed key is the arithmetic key. */
  lemma PackBitsArithmetic(k: Kind, major: Unsigned, minor: Unsigned)
    requires major < 256 && minor < 256
    ensures PackBits(k, major, minor) == Key(k, major, minor)
  {
    Pow2Values();
    var o := Ordinal(k);
    var kindBits, majorBits := ShiftLeft(o, 16), ShiftLeft(major, 8);
    ShiftWithoutOverflow(o, major);
    BitOrDisjoint(kindBits, o, majorBits, 16);
    var high := BitOr(kindBits, majorBits);
    assert high == o * 65536 + major * 256;
    BitOrDisjoint(high, o * 256 + major, minor, 8);
    assert PackBits(k, major, minor) == BitOr(high, minor);
  }

  /** The kind and major fields lose no bits when shifted into place. */
  lemma ShiftWithoutOverflow(o: nat, major: Unsigned)
    requires o < KindCount && major < 256
    ensures ShiftLeft(o, 16) == o * Pow2(16) == o * 65536
    ensures ShiftLeft(major, 8) == major * 256 < Pow2(16)
    ensures o * 65536 + major * 256 == (o * 256 + major) * Pow2(8)
  {
    Pow2Values();
  }

  /** The packed key `(unsigned)Kind << 16 | Major << 8 | Minor` in 32-bit
      unsigned arithmetic: shifted-out bits are lost and the fields are OR-ed,
      so once major or minor reaches 256 distinct triples can share a key.
      Below that bound it is the arithmetic key. */
  function Pack(k: Kind, major: Unsigned, minor: Unsigned): (h: Unsigned)
    ensures major < 256 && minor < 256 ==> h == Key(k, major, minor)
  {
    PackBitsBounded(k, major, minor);
    if major < 256 && minor < 256 then
      PackBitsArithmetic(k, major, minor);
      PackBits(k, major, minor)
    else
      PackBits(k, major, minor)
  }

  /** Linear search for a key: the reference the binary search is checked
      against. */
  function FindKey(keys: seq<(nat, nat)>, h: nat): (r: Option<nat>)
    ensures r.Some? ==> r.value < |keys| && keys[r.value].0 == h
    ensures r.None? ==> forall j :: 0 <= j < |keys| ==> keys[j].0 != h
  {
    if keys == [] then None
    else if keys[0].0 == h then Some(0)
    else match FindKey(keys[1..], h)
      case Some(j) => Some(j + 1)
      case None => None
  }

  /** ShaderModel::GetInvalid: the sentinel, the table's last slot. */
  function GetInvalid(): (i: nat)
    ensures i < |Table| && Table[i] == InvalidModel && Table[i].kind == Invalid
  {
    TableShape();
    |Table| - 1
  }

  /** The entry a key resolves to: the index the key table pairs with the
      key, or the sentinel when the key is not in the key table. */
  function ResolveIndex(h: nat): (i: nat)
    ensures i < |Table|
    ensures i == GetInvalid() <==> forall j :: 0 <= j < |HashToIdx| ==> HashToIdx[j].0 != h
    ensures i != GetInvalid() ==> KeyOf(Table[i]) == h
  {
    KeyTableAgrees();
    match FindKey(HashToIdx, h)
    case Some(j) => HashToIdx[j].1
    case None => GetInvalid()
  }

  /** std::lower_bound on the keys: the first position whose key is not
      less than `h`. */
  method LowerBound(keys: seq<(nat, nat)>, h: nat) returns (first: nat)
    requires StrictlyAscending(keys)
    ensures first <= |keys|
    ensures forall j :: 0 <= j < first ==> keys[j].0 < h
    ensures forall j :: first <= j < |keys| ==> keys[j].0 >= h
  {
    first := 0;
    var count: nat := |keys|;
    while count > 0
      invariant first + count <= |keys|
      invariant forall j :: 0 <= j < first ==> keys[j].0 < h
      invariant forall j :: first + count <= j < |keys| ==> keys[j].0 >= h
    {
      var step := count / 2;
      var it := first + step;
      if keys[it].0 < h {
        first := it + 1;
        count := count - (step + 1);
      } else {
        count := step;
      }
    }
  }

  /** What lower_bound's position tells: in ascending keys, the key is
      present exactly when it sits at that position. */
  lemma LowerBoundDecides(keys: seq<(nat, nat)>, first: nat, h: nat)
    requires StrictlyAscending(keys)
    requires first <= |keys|
    requires forall j :: 0 <= j < first ==> keys[j].0 < h
    requires forall j :: first <= j < |keys| ==> keys[j].0 >= h
    ensures FindKey(keys, h) == if first == |keys| || keys[first].0 != h then None else Some(first)
  {
    match FindKey(keys, h)
    case Some(j) =>
      assert keys[j].0 == h;
    case None =>
  }

  /** ShaderModel::Get: pack the key, then lower_bound over the key table;
      accept the position only on an exact key match, else the sentinel. */
  method Get(kind: Kind, major: Unsigned, minor: Unsigned) returns (index: nat)
    ensures index == ResolveIndex(Pack(kind, major, minor))
    ensures index < |Table|
  {
    var hash := Pack(kind, major, minor);
    KeyTableStrictlyIncreasing();
    var first := LowerBound(HashToIdx, hash);
    LowerBoundDecides(HashToIdx, first, hash);
    if first == |HashToIdx| || HashToIdx[first].0 != hash {
      index := GetInvalid();
    } else {
      index := HashToIdx[first].1;
    }
  }

  /** Every profile is found under its own version: looking up a record's
      (kind, major, minor) yields that record. */
  lemma GetFindsEveryProfile(i: nat)
    requires i < |Table| - 1
    ensures Table[i].major < 256 && Table[i].minor < 256
    ensures ResolveIndex(Pack(Table[i].kind, Table[i].major, Table[i].minor)) == i
  {
    KeyTableAgrees();
    KeyTableStrictlyIncreasing();
    ProfilesAreCanonical();
    var e := Table[i];
    assert HashToIdx[i].0 == KeyOf(e);
    match FindKey(HashToIdx, KeyOf(e))
    case Some(j) =>
      assert j == i;
    case None =>
  }

  /** With major and minor below 256 the lookup is exact: it yields a
      profile exactly when one has the requested (kind, major, minor), and
      then that profile; otherwise the sentinel. */
  lemma GetIsExact(k: Kind, major: Unsigned, minor: Unsigned)
    requires major < 256 && minor < 256
    ensures var r := ResolveIndex(Pack(k, major, minor));
      (r != GetInvalid() ==> Table[r].kind == k && Table[r].major == major && Table[r].minor == minor) &&
      (r == GetInvalid() <==> forall i :: 0 <= i < |Table| - 1 ==>
        !(Table[i].kind == k && Table[i].major == major && Table[i].minor == minor))
  {
    KeyTableAgrees();
    ProfilesAreCanonical();
    var r := ResolveIndex(Pack(k, major, minor));
    if r != GetInvalid() {
      var e := Table[r];
      PackedOrder(Ordinal(e.kind), e.major, e.minor, Ordinal(k), major, minor);
      OrdinalInjective(e.kind, k);
    } else {
      forall i | 0 <= i < |Table| - 1
        ensures !(Table[i].kind == k && Table[i].major == major && Table[i].minor == minor)
      {
        assert HashToIdx[i].0 == KeyOf(Table[i]);
      }
    }
  }

  /** The packed key aliases once a field reaches 256: minor 1536 lands on
      the bits of major 6. */
  lemma PackAliasesWideMinor()
    ensures Pack(Pixel, 0, 1536) == Pack(Pixel, 6, 0)
  {
    Pow2Values();
    assert ShiftLeft(0, 8) == 0 && ShiftLeft(Ordinal(Pixel), 16) == 0;
  }

  /** So asking for pixel shader model 0.1536 yields ps_6_0. */
  lemma GetAliasesWideMinor()
    ensures ResolveIndex(Pack(Pixel, 0, 1536)) == 4 && Table[4].name == "ps_6_0"
  {
    assert Table[4].name == "ps_6_0" by {
      assert Table[4] == PixelModels[4];
    }
    assert ResolveIndex(Pack(Pixel, 0, 1536)) == 4 by {
      PackAliasesWideMinor();
      GetFindsEveryProfile(4);
    }
  }
}
