/** SteamID64: the 64-bit identifier of any entity on Steam.

    The Go types are kept at their widths as bit-vectors: the account number
    is a `uint32`, the instance, account type and universe are `uint8`, and the
    identifier itself a `uint64`. */
module SteamIds {

  type SteamID = bv64
  type AccountType = bv8
  type Universe = bv8

  // Universes
  const Unspecified: Universe := 0
  const Public: Universe := 1
  const Beta: Universe := 2
  const Internal: Universe := 3
  const Dev: Universe := 4
  const RC: Universe := 5

  /** The label table, indexed by the universe's value (its keys run from
      `Unspecified` up to `RC` without gaps). */
  const UniverseNames: seq<string> :=
    ["Unspecified", "Public", "Beta", "Internal", "Dev", "RC"]

  // Account types
  const InvalidAccountType: AccountType := 0
  const Individual: AccountType := 1
  const Multiseat: AccountType := 2
  const GameServer: AccountType := 3
  const AnonGameServer: AccountType := 4
  const Pending: AccountType := 5
  const ContentServer: AccountType := 6
  const Clan: AccountType := 7
  const Chat: AccountType := 8
  const SuperSeeder: AccountType := 9
  const AnonUser: AccountType := 10

  /** The label table, indexed by the account type's value. */
  const AccountTypeNames: seq<string> :=
    ["InvalidAccountType", "Individual", "Multiseat", "GameServer", "AnonGameServer",
     "Pending", "ContentServer", "Clan", "Chat", "SuperSeeder", "AnonUser"]

  /** `Universe.String`: a lookup in the label table; a missing label is the
      empty string (Go's zero value for a missing map key), never a failure. */
  function UniverseString(u: Universe): (r: string)
    ensures r != "" <==> u <= RC
    ensures u == Public ==> r == "Public"
  {
    if (u as int) < |UniverseNames| then UniverseNames[u as int] else ""
  }

  /** `AccountType.String`, the same lookup over the account-type table. */
  function AccountTypeString(a: AccountType): (r: string)
    ensures r != "" <==> a <= AnonUser
    ensures a == Individual ==> r == "Individual"
    ensures a == Clan ==> r == "Clan"
  {
    if (a as int) < |AccountTypeNames| then AccountTypeNames[a as int] else ""
  }

  /** `AccountType.Letter`. The Go switch panics on a value past `AnonUser`,
      so callers must stay inside the table. */
  function Letter(a: AccountType): (r: string)
    requires a <= AnonUser
    ensures r == "" <==> a == SuperSeeder || a == AnonUser
    ensures |r| <= 1
  {
    if a == InvalidAccountType then "I"
    else if a == Individual then "U"
    else if a == Multiseat then "M"
    else if a == GameServer then "G"
    else if a == AnonGameServer then "A"
    else if a == Pending then "P"
    else if a == ContentServer then "C"
    else if a == Clan then "g"
    else if a == Chat then "c"
    else ""
  }

  /** Bits 40-51 of an identifier: the upper part of the 20-bit instance
      field that `Decompose` never reads. */
  function HighInstanceBits(s: SteamID): bv64 {
    (s >> 40) & 0xfff
  }

  /** `NewID64`: the account number fills bits 0-31, the instance bits 32-39,
      the account type is shifted to bit 52 and the universe to bit 56. The
      account type is a whole byte, so a value of 16 or more overlaps the
      universe: the top byte is the universe OR-ed with the type's high nibble. */
  function NewID64(id: bv32, instance: bv8, t: AccountType, u: Universe): (s: SteamID)
    ensures s & 0xffff_ffff == id as bv64
    ensures (s >> 32) & 0xff == instance as bv64
    ensures HighInstanceBits(s) == 0
    ensures (s >> 52) & 0xf == (t & 0xf) as bv64
    ensures s >> 56 == (u as bv64) | ((t as bv64) >> 4)
  {
    var lo, inst, ty, un := id as bv64, (instance as bv64) << 32, (t as bv64) << 52, (u as bv64) << 56;
    assert lo >> 32 == 0 && inst & 0xffff_ffff == 0 && inst >> 40 == 0;
    assert ty & 0xf_ffff_ffff_ffff == 0 && un & 0xff_ffff_ffff_ffff == 0;
    lo | inst | ty | un
  }

  /** The four fields as `Decompose` returns them. */
  datatype Fields = Fields(id: bv32, instance: bv8, t: AccountType, u: Universe)

  /** `SteamID.Decompose`. The instance is masked with 0x3ff and then
      truncated to a `uint8`, so only bits 32-39 reach it; the account type
      is the nibble at bit 52 and the universe the top byte. */
  function Decompose(s: SteamID): (f: Fields)
    ensures f.id as bv64 == s & 0xffff_ffff
    ensures f.instance as bv64 == (s >> 32) & 0xff
    ensures f.t as bv64 == (s >> 52) & 0xf && f.t < 16
    ensures f.u as bv64 == s >> 56
  {
    var c := s >> 32;
    var instance := ((c & 0x3ff) & 0xff) as bv8;   // uint8(c & 0x3ff) keeps the low byte
    var c' := c >> 20;
    var t := (c' & 0xf) as bv8;
    var c'' := c' >> 4;
    var u := (c'' & 0xff) as bv8;
    Fields((s & 0xffff_ffff) as bv32, instance, t, u)
  }

  /** `UserSteamID`: an individual account, instance 1, public universe. */
  function UserSteamID(id: bv32): (s: SteamID)
    ensures s == 76561197960265728 + id as bv64
  {
    NewID64(id, 1, Individual, Public)
  }

  /** `GroupSteamID`: a clan, instance 0, public universe. */
  function GroupSteamID(id: bv32): (s: SteamID)
    ensures s == 103582791429521408 + id as bv64
  {
    NewID64(id, 0, Clan, Public)
  }

  /** Decomposing a freshly packed identifier gives back the four fields,
      provided the account type fits its 4-bit field. */
  lemma DecomposeNewID64(id: bv32, instance: bv8, t: AccountType, u: Universe)
    requires t < 16
    ensures Decompose(NewID64(id, instance, t, u)) == Fields(id, instance, t, u)
  {
  }

  /** An account type of 16 or more is not recovered: its high nibble lands
      in the universe that `Decompose` reports. */
  lemma WideAccountTypeSpills(id: bv32, instance: bv8, t: AccountType, u: Universe)
    requires t >= 16
    ensures Decompose(NewID64(id, instance, t, u)).t == t & 0xf != t
    ensures Decompose(NewID64(id, instance, t, u)).u == u | (t >> 4)
  {
  }

  /** Repacking a decomposed identifier restores it exactly when bits 40-51,
      which `Decompose` drops, are clear. */
  lemma NewID64Decompose(s: SteamID)
    ensures var f := Decompose(s);
            NewID64(f.id, f.instance, f.t, f.u) == s <==> HighInstanceBits(s) == 0
  {
  }

  /** Packing is injective on in-range fields: distinct field tuples give
      distinct identifiers. */
  lemma NewID64Injective(a: Fields, b: Fields)
    requires a.t < 16 && b.t < 16
    requires NewID64(a.id, a.instance, a.t, a.u) == NewID64(b.id, b.instance, b.t, b.u)
    ensures a == b
  {
    DecomposeNewID64(a.id, a.instance, a.t, a.u);
    DecomposeNewID64(b.id, b.instance, b.t, b.u);
  }

  /** A user identifier decomposes to (n, 1, Individual, Public) and reads
      back with the expected labels. */
  lemma UserSteamIDFields(n: bv32)
    ensures Decompose(UserSteamID(n)) == Fields(n, 1, Individual, Public)
    ensures AccountTypeString(Decompose(UserSteamID(n)).t) == "Individual"
    ensures Letter(Decompose(UserSteamID(n)).t) == "U"
    ensures UniverseString(Decompose(UserSteamID(n)).u) == "Public"
  {
    DecomposeNewID64(n, 1, Individual, Public);
  }

  /** A group identifier decomposes to (n, 0, Clan, Public). */
  lemma GroupSteamIDFields(n: bv32)
    ensures Decompose(GroupSteamID(n)) == Fields(n, 0, Clan, Public)
    ensures Letter(Decompose(GroupSteamID(n)).t) == "g"
  {
    DecomposeNewID64(n, 0, Clan, Public);
  }
}
