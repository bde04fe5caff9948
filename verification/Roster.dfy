/**
 Who is in a network and at which address, and the text the lobby keeps it in
 (src/steamlan/app/roster.py).
 */
module Roster {
  import opened Basics
  import opened Ipv4
  import opened Text

  type SteamId = nat
  type Roster = map<SteamId, Address>

  const MAX_ID := 0x1_0000_0000_0000_0000
  const FIRST_HOST: Address := 0x0A4D_0001
  const LAST_HOST: Address := 0x0A4D_00FE

  predicate IsId(id: SteamId) { 0 < id < MAX_ID }

  ghost predicate OneToOne(r: Roster) {
    forall x, y :: x in r && y in r && r[x] == r[y] ==> x == y
  }

  /** A roster as the protocol keeps it: real ids, one member address each. */
  ghost predicate Valid(r: Roster) {
    && (forall x :: x in r ==> IsId(x) && IsMemberAddress(r[x]))
    && OneToOne(r)
  }

  // Giving addresses

  datatype Assigned = Assigned(roster: Roster, address: Address)

  /** The lowest address from `from` to the last host that isn't used. */
  function LowestFree(used: set<Address>, from: Address): (r: Option<Address>)
    requires FIRST_HOST <= from <= LAST_HOST + 1
    ensures r.Some? ==>
      && from <= r.value <= LAST_HOST && r.value !in used
      && forall a :: from <= a < r.value ==> a in used
    ensures r.None? ==> forall a :: from <= a <= LAST_HOST ==> a in used
    decreases LAST_HOST - from
  {
    if from > LAST_HOST then None
    else if from !in used then Some(from)
    else LowestFree(used, from + 1)
  }

  function AssignTo(r: Roster, id: SteamId, preferred: Option<Address>): Option<Assigned> {
    if id in r then Some(Assigned(r, r[id]))
    else if preferred.Some? && IsMemberAddress(preferred.value) && preferred.value !in r.Values then
      Some(Assigned(r[id := preferred.value], preferred.value))
    else
      match LowestFree(r.Values, FIRST_HOST)
      case Some(a) => Some(Assigned(r[id := a], a))
      case None => None
  }

  /** `assign`: the loop over the hosts gives what `AssignTo` says; None is its ValueError. */
  method Assign(r: Roster, id: SteamId, preferred: Option<Address>) returns (result: Option<Assigned>)
    ensures result == AssignTo(r, id, preferred)
  {
    if id in r {
      return Some(Assigned(r, r[id]));
    }
    var used := r.Values;
    if preferred.Some? && IsMemberAddress(preferred.value) && preferred.value !in used {
      return Some(Assigned(r[id := preferred.value], preferred.value));
    }
    var address := FIRST_HOST;
    while address <= LAST_HOST
      invariant FIRST_HOST <= address <= LAST_HOST + 1
      invariant LowestFree(used, address) == LowestFree(used, FIRST_HOST)
      decreases LAST_HOST - address
    {
      if address !in used {
        return Some(Assigned(r[id := address], address));
      }
      address := address + 1;
    }
    result := None;
  }

  /** Giving out an address keeps the roster valid, changes no other entry, honours
      a free preference, and otherwise takes the lowest free one. */
  lemma AssignKeeps(r: Roster, id: SteamId, preferred: Option<Address>)
    requires Valid(r) && IsId(id)
    ensures AssignTo(r, id, preferred).Some? ==>
      var Assigned(after, a) := AssignTo(r, id, preferred).value;
      && Valid(after) && after == r[id := a]
      && (id in r ==> a == r[id])
      && (id !in r ==> forall y :: y in r ==> r[y] != a)
      && (id !in r && a != preferred.GetOr(a) ==> !IsMemberAddress(preferred.value) || preferred.value in r.Values)
  {
    var given := AssignTo(r, id, preferred);
    if given.Some? && id !in r {
      var a := given.value.address;
      assert a !in r.Values;
      forall y | y in r ensures r[y] != a {
        assert r[y] in r.Values;
      }
    } else if given.Some? {
      assert r[id := r[id]] == r;
    }
  }

  /** There is no address to give exactly when a new member meets 254 taken ones. */
  lemma AssignFails(r: Roster, id: SteamId, preferred: Option<Address>)
    ensures AssignTo(r, id, preferred).None? <==>
      id !in r && forall a: Address :: IsMemberAddress(a) ==> a in r.Values
  {
  }

  // The text in the lobby

  lemma {:induction false} LeastExists(s: set<SteamId>)
    requires s != {}
    ensures exists m :: m in s && forall x :: x in s ==> m <= x
  {
    var some :| some in s;
    var rest := s - {some};
    if rest == {} {
      assert s == {some};
    } else {
      LeastExists(rest);
      var m :| m in rest && forall x :: x in rest ==> m <= x;
      var least := if some < m then some else m;
      assert least in s && forall x :: x in s ==> least <= x by {
        forall x | x in s ensures least <= x {
          assert x == some || x in rest;
        }
      }
    }
  }

  function Least(s: set<SteamId>): (m: SteamId)
    requires s != {}
    ensures m in s && forall x :: x in s ==> m <= x
  {
    LeastExists(s);
    var m :| m in s && forall x :: x in s ==> m <= x;
    m
  }

  ghost predicate Ascending(ids: seq<SteamId>) {
    forall i, j :: 0 <= i < j < |ids| ==> ids[i] < ids[j]
  }

  function SortedIds(s: set<SteamId>): (ids: seq<SteamId>)
    decreases |s|
  {
    if s == {} then [] else [Least(s)] + SortedIds(s - {Least(s)})
  }

  lemma {:induction false} SortedMembers(s: set<SteamId>)
    ensures |SortedIds(s)| == |s|
    ensures forall x :: x in SortedIds(s) <==> x in s
    decreases |s|
  {
    if s != {} {
      SortedMembers(s - {Least(s)});
    }
  }

  lemma {:induction false} SortedAscends(s: set<SteamId>)
    ensures Ascending(SortedIds(s))
    decreases |s|
  {
    if s != {} {
      var m, rest := Least(s), s - {Least(s)};
      var ids := SortedIds(rest);
      SortedAscends(rest);
      SortedMembers(rest);
      forall i | 0 <= i < |ids| ensures m < ids[i] {
        assert ids[i] in rest;
      }
    }
  }

  function Entry(id: SteamId, a: Address): string {
    Decimal(id) + ['='] + AddressText(a)
  }

  function EncodeIds(ids: seq<SteamId>, r: Roster): string
    requires forall i :: 0 <= i < |ids| ==> ids[i] in r
  {
    if ids == [] then ""
    else if |ids| == 1 then Entry(ids[0], r[ids[0]])
    else Entry(ids[0], r[ids[0]]) + [','] + EncodeIds(ids[1..], r)
  }

  function Encode(r: Roster): string {
    SortedMembers(r.Keys);
    EncodeIds(SortedIds(r.Keys), r)
  }

  /** One "steamid=address" part; None where `decode` gives up on it. */
  function ParseEntry(part: string): (e: Option<(SteamId, Address)>)
    ensures e.Some? ==> IsId(e.value.0) && IsMemberAddress(e.value.1)
  {
    var i := Find(part, '=');
    if i == |part| || !IsDecimal(part[..i]) then None
    else
      var id := ParseDecimal(part[..i]);
      match ParseAddress(part[i + 1..])
      case None => None
      case Some(a) => if IsId(id) && IsMemberAddress(a) then Some((id, a)) else None
  }

  function AddParts(parts: seq<string>, r: Roster): Option<Roster> {
    if parts == [] then Some(r)
    else if parts[0] == "" then AddParts(parts[1..], r)
    else
      match ParseEntry(parts[0])
      case None => None
      case Some((id, a)) => if id in r then None else AddParts(parts[1..], r[id := a])
  }

  function Decode(text: string): Option<Roster> {
    match AddParts(Split(text, ','), map[])
    case None => None
    case Some(r) => if |r.Values| != |r| then None else Some(r)
  }

  /** `decode`: the loop that fills the roster part by part. */
  method DecodeText(text: string) returns (result: Option<Roster>)
    ensures result == Decode(text)
  {
    var roster: Roster := map[];
    var parts := Split(text, ',');
    var i := 0;
    while i < |parts|
      invariant 0 <= i <= |parts|
      invariant AddParts(parts[i..], roster) == AddParts(parts, map[])
    {
      var part := parts[i];
      assert parts[i..][0] == part && parts[i..][1..] == parts[i + 1..];
      i := i + 1;
      if part == "" {
        continue;
      }
      var entry := ParseEntry(part);
      if entry.None? || entry.value.0 in roster {
        return None;
      }
      roster := roster[entry.value.0 := entry.value.1];
    }
    if |roster.Values| != |roster| {
      return None;
    }
    result := Some(roster);
  }

  // Counting addresses tells whether they are distinct.

  lemma {:induction false} ValuesCount(r: Roster)
    ensures |r.Values| <= |r|
    ensures |r.Values| == |r| <==> OneToOne(r)
    decreases |r|
  {
    if r == map[] {
      assert r.Values == {};
    } else {
      var x :| x in r;
      var rest := r - {x};
      assert r.Keys == rest.Keys + {x};
      assert r.Values == rest.Values + {r[x]} by {
        forall a | a in r.Values ensures a in rest.Values + {r[x]} {
          var y :| y in r && r[y] == a;
          assert y == x || (y in rest && rest[y] == a);
        }
      }
      ValuesCount(rest);
      if r[x] in rest.Values {
        var y :| y in rest && rest[y] == r[x];
        assert y in r && r[y] == r[x] && y != x;
        assert r.Values == rest.Values;
      } else {
        assert |r.Values| == |rest.Values| + 1;
        if OneToOne(rest) {
          forall y, z | y in r && z in r && r[y] == r[z] ensures y == z {
            assert y in rest ==> rest[y] in rest.Values;
            assert z in rest ==> rest[z] in rest.Values;
          }
        }
        if OneToOne(r) {
          assert OneToOne(rest) by {
            forall y, z | y in rest && z in rest && rest[y] == rest[z] ensures y == z {
              assert r[y] == r[z];
            }
          }
        }
      }
    }
  }

  ghost predicate Entries(r: Roster) {
    forall x :: x in r ==> IsId(x) && IsMemberAddress(r[x])
  }

  lemma {:induction false} AddPartsEntries(parts: seq<string>, r: Roster)
    requires Entries(r)
    ensures AddParts(parts, r).Some? ==> Entries(AddParts(parts, r).value)
  {
    if parts != [] {
      if parts[0] == "" {
        AddPartsEntries(parts[1..], r);
      } else {
        var e := ParseEntry(parts[0]);
        if e.Some? && e.value.0 !in r {
          AddPartsEntries(parts[1..], r[e.value.0 := e.value.1]);
        }
      }
    }
  }

  /** Whatever text a roster is decoded from, it is a valid one. */
  lemma DecodeValid(text: string)
    ensures Decode(text).Some? ==> Valid(Decode(text).value)
  {
    AddPartsEntries(Split(text, ','), map[]);
    var r := AddParts(Split(text, ','), map[]);
    if r.Some? {
      ValuesCount(r.value);
    }
  }

  /** Whether some part lists id at address a. */
  ghost predicate Lists(parts: seq<string>, id: SteamId, a: Address) {
    exists i :: 0 <= i < |parts| && parts[i] != "" && ParseEntry(parts[i]) == Some((id, a))
  }

  lemma ListsFirst(parts: seq<string>, id: SteamId, a: Address)
    requires parts != []
    ensures Lists(parts, id, a) <==>
      (parts[0] != "" && ParseEntry(parts[0]) == Some((id, a))) || Lists(parts[1..], id, a)
  {
  }

  ghost predicate Has(r: Roster, id: SteamId, a: Address) { id in r && r[id] == a }

  lemma {:induction false} AddPartsLists(parts: seq<string>, r: Roster, id: SteamId, a: Address)
    requires AddParts(parts, r).Some?
    ensures Has(AddParts(parts, r).value, id, a) <==> Has(r, id, a) || Lists(parts, id, a)
    ensures id in r ==> Has(AddParts(parts, r).value, id, r[id])
  {
    if parts != [] {
      ListsFirst(parts, id, a);
      if parts[0] == "" {
        AddPartsLists(parts[1..], r, id, a);
      } else {
        var (first, at) := ParseEntry(parts[0]).value;
        AddPartsLists(parts[1..], r[first := at], id, a);
      }
    }
  }

  /** A decoded roster holds exactly the entries its text lists. */
  lemma DecodeLists(text: string, id: SteamId, a: Address)
    requires Decode(text).Some?
    ensures Has(Decode(text).value, id, a) <==> Lists(Split(text, ','), id, a)
  {
    AddPartsLists(Split(text, ','), map[], id, a);
  }

  /** The text of an entry. */
  ghost predicate Spells(part: string, digits: string, id: SteamId, a: Address) {
    && part == digits + ['='] + AddressText(a) && IsDecimal(digits) && ParseDecimal(digits) == id
    && 0 < id < 0x1_0000_0000_0000_0000 && a / 256 == 0x0A4D00 && 1 <= a % 256 <= 254
  }

  /** A part is read as an entry if and only if it is a SteamID in digits, "=" and a member
      address, 10.77.0.1 to 10.77.0.254, as it is printed. */
  lemma EntryExactly(part: string, id: SteamId, a: Address)
    ensures ParseEntry(part) == Some((id, a)) <==> exists digits :: Spells(part, digits, id, a)
  {
    hide ParseAddress, AddressText;
    if ParseEntry(part) == Some((id, a)) {
      var i := Find(part, '=');
      AddressSpelled(part[i + 1..]);
      assert part == part[..i] + ['='] + part[i + 1..];
      assert Spells(part, part[..i], id, a);
    }
    forall digits | Spells(part, digits, id, a)
      ensures ParseEntry(part) == Some((id, a))
    {
      FindPrefix(digits, '=', AddressText(a));
      assert part[..|digits|] == digits && part[|digits| + 1..] == AddressText(a);
      AddressInverse(a);
    }
  }

  ghost predicate Readable(parts: seq<string>) {
    forall i :: 0 <= i < |parts| && parts[i] != "" ==> ParseEntry(parts[i]).Some?
  }

  /** No two entries have the same id. */
  ghost predicate OwnIds(parts: seq<string>)
    requires Readable(parts)
  {
    forall i, j :: 0 <= i < j < |parts| && parts[i] != "" && parts[j] != "" ==>
      ParseEntry(parts[i]).value.0 != ParseEntry(parts[j]).value.0
  }

  ghost predicate OwnAddresses(parts: seq<string>)
    requires Readable(parts)
  {
    forall i, j :: 0 <= i < j < |parts| && parts[i] != "" && parts[j] != "" ==>
      ParseEntry(parts[i]).value.1 != ParseEntry(parts[j]).value.1
  }

  ghost predicate NewIds(parts: seq<string>, r: Roster)
    requires Readable(parts)
  {
    forall i :: 0 <= i < |parts| && parts[i] != "" ==> ParseEntry(parts[i]).value.0 !in r
  }

  lemma RestExactly(parts: seq<string>, r: Roster)
    requires parts != [] && (parts[0] == "" || ParseEntry(parts[0]).Some?)
    ensures Readable(parts) <==> Readable(parts[1..])
    ensures Readable(parts) ==>
      (OwnIds(parts) && NewIds(parts, r) <==>
        && OwnIds(parts[1..])
        && (if parts[0] == "" then NewIds(parts[1..], r)
            else
              var e := ParseEntry(parts[0]).value;
              e.0 !in r && NewIds(parts[1..], r[e.0 := e.1])))
  {
    hide ParseEntry;
    var rest := parts[1..];
    assert forall i :: 0 <= i < |rest| ==> rest[i] == parts[i + 1];
    assert forall i :: 0 < i < |parts| ==> parts[i] == rest[i - 1];
  }

  lemma {:induction false} AddPartsExactly(parts: seq<string>, r: Roster)
    ensures AddParts(parts, r).Some? <==> Readable(parts) && OwnIds(parts) && NewIds(parts, r)
  {
    hide ParseEntry;
    if parts != [] {
      var rest := parts[1..];
      assert forall i :: 0 < i < |parts| ==> parts[i] == rest[i - 1];
      assert Readable(parts) ==> Readable(rest) by {
        assert forall i :: 0 <= i < |rest| ==> rest[i] == parts[i + 1];
      }
      if parts[0] == "" {
        AddPartsExactly(rest, r);
        RestExactly(parts, r);
      } else if ParseEntry(parts[0]).Some? && ParseEntry(parts[0]).value.0 !in r {
        var e := ParseEntry(parts[0]).value;
        AddPartsExactly(rest, r[e.0 := e.1]);
        RestExactly(parts, r);
      }
    }
  }

  lemma AddressesApart(parts: seq<string>, r: Roster)
    requires AddParts(parts, map[]) == Some(r) && Readable(parts) && OwnIds(parts)
    ensures OneToOne(r) <==> OwnAddresses(parts)
  {
    hide ParseEntry, AddParts;
    forall id, a
      ensures Has(r, id, a) <==> Lists(parts, id, a)
    {
      AddPartsLists(parts, map[], id, a);
    }
    forall i | 0 <= i < |parts| && parts[i] != ""
      ensures Has(r, ParseEntry(parts[i]).value.0, ParseEntry(parts[i]).value.1)
    {
      assert Lists(parts, ParseEntry(parts[i]).value.0, ParseEntry(parts[i]).value.1);
    }
    if OwnAddresses(parts) {
      forall x, y | x in r && y in r && r[x] == r[y]
        ensures x == y
      {
        assert Has(r, x, r[x]) && Has(r, y, r[y]);
        var i :| 0 <= i < |parts| && parts[i] != "" && ParseEntry(parts[i]) == Some((x, r[x]));
        var j :| 0 <= j < |parts| && parts[j] != "" && ParseEntry(parts[j]) == Some((y, r[y]));
        assert i == j;
      }
    }
  }

  /** A text is a roster if and only if every part of it that isn't empty is an entry, and no
      two have an id or an address in common. */
  lemma DecodeExactly(text: string)
    ensures var parts := Split(text, ',');
      Decode(text).Some? <==> Readable(parts) && OwnIds(parts) && OwnAddresses(parts)
  {
    hide ParseEntry, Split, AddParts;
    var parts := Split(text, ',');
    AddPartsExactly(parts, map[]);
    var r := AddParts(parts, map[]);
    if r.Some? {
      ValuesCount(r.value);
      AddressesApart(parts, r.value);
    }
  }

  lemma EntryInverse(id: SteamId, a: Address)
    requires IsId(id) && IsMemberAddress(a)
    ensures Entry(id, a) != "" && ',' !in Entry(id, a)
    ensures ParseEntry(Entry(id, a)) == Some((id, a))
  {
    var e := Entry(id, a);
    DecimalHas(id, '=');
    DecimalHas(id, ',');
    AddressHas(a, ',');
    FindPrefix(Decimal(id), '=', AddressText(a));
    assert e[..|Decimal(id)|] == Decimal(id);
    assert e[|Decimal(id)| + 1..] == AddressText(a);
    ParseDecimalInverse(id);
    AddressInverse(a);
  }

  /** The part of a roster about the given ids. */
  ghost function Restrict(ids: seq<SteamId>, r: Roster): Roster
    requires forall i :: 0 <= i < |ids| ==> ids[i] in r
  {
    if ids == [] then map[] else Restrict(ids[1..], r)[ids[0] := r[ids[0]]]
  }

  lemma {:induction false} RestrictKeys(ids: seq<SteamId>, r: Roster)
    requires forall i :: 0 <= i < |ids| ==> ids[i] in r
    ensures forall x :: x in Restrict(ids, r) <==> x in ids
    ensures forall x :: x in ids ==> Restrict(ids, r)[x] == r[x]
  {
    if ids != [] {
      RestrictKeys(ids[1..], r);
    }
  }

  /** Every id is an entry of r that acc doesn't have, in ascending order. */
  ghost predicate Missing(ids: seq<SteamId>, r: Roster, acc: Roster) {
    && Ascending(ids)
    && forall i :: 0 <= i < |ids| ==>
         ids[i] in r && ids[i] !in acc && IsId(ids[i]) && IsMemberAddress(r[ids[i]])
  }

  lemma Shift(acc: Roster, tail: Roster, id: SteamId, a: Address)
    requires id !in tail
    ensures acc + tail[id := a] == acc[id := a] + tail
  {
  }

  lemma MissingRest(ids: seq<SteamId>, r: Roster, acc: Roster)
    requires ids != [] && Missing(ids, r, acc)
    ensures Missing(ids[1..], r, acc[ids[0] := r[ids[0]]])
    ensures acc + Restrict(ids, r) == acc[ids[0] := r[ids[0]]] + Restrict(ids[1..], r)
  {
    var rest, next := ids[1..], acc[ids[0] := r[ids[0]]];
    assert Missing(rest, r, next) by {
      assert forall i :: 0 <= i < |rest| ==> rest[i] == ids[i + 1];
    }
    assert ids[0] !in rest;
    RestrictKeys(rest, r);
    Shift(acc, Restrict(rest, r), ids[0], r[ids[0]]);
  }

  lemma AddFirst(part: string, rest: seq<string>, acc: Roster)
    requires part != "" && ParseEntry(part).Some? && ParseEntry(part).value.0 !in acc
    ensures AddParts([part] + rest, acc) ==
      AddParts(rest, acc[ParseEntry(part).value.0 := ParseEntry(part).value.1])
  {
  }

  lemma AddOnly(part: string, acc: Roster)
    requires part != "" && ParseEntry(part).Some? && ParseEntry(part).value.0 !in acc
    ensures AddParts([part], acc) == Some(acc[ParseEntry(part).value.0 := ParseEntry(part).value.1])
  {
  }

  lemma {:induction false} EncodeParts(ids: seq<SteamId>, r: Roster, acc: Roster)
    requires Missing(ids, r, acc)
    ensures AddParts(Split(EncodeIds(ids, r), ','), acc) == Some(acc + Restrict(ids, r))
  {
    if ids == [] {
      SplitWhole("", ',');
      assert acc + map[] == acc;
    } else {
      var e, rest := Entry(ids[0], r[ids[0]]), ids[1..];
      var next := acc[ids[0] := r[ids[0]]];
      EntryInverse(ids[0], r[ids[0]]);
      MissingRest(ids, r, acc);
      EncodeParts(rest, r, next);
      if rest == [] {
        SplitWhole(e, ',');
        AddOnly(e, acc);
      } else {
        SplitFirst(e, ',', EncodeIds(rest, r));
        AddFirst(e, Split(EncodeIds(rest, r), ','), acc);
      }
    }
  }

  lemma SortedEntries(ids: seq<SteamId>, r: Roster)
    requires Entries(r) && Ascending(ids) && forall x :: x in ids ==> x in r
    ensures Missing(ids, r, map[])
  {
  }

  lemma RestrictAll(ids: seq<SteamId>, r: Roster)
    requires forall x :: x in ids <==> x in r
    requires forall i :: 0 <= i < |ids| ==> ids[i] in r
    ensures map[] + Restrict(ids, r) == r
  {
    RestrictKeys(ids, r);
    var all := Restrict(ids, r);
    assert all == r;
    assert map[] + all == all;
  }

  lemma AllMissing(r: Roster)
    requires Valid(r)
    ensures Missing(SortedIds(r.Keys), r, map[])
    ensures map[] + Restrict(SortedIds(r.Keys), r) == r
  {
    var ids: seq<SteamId> := SortedIds(r.Keys);
    SortedMembers(r.Keys);
    SortedAscends(r.Keys);
    SortedEntries(ids, r);
    RestrictAll(ids, r);
  }

  /** The round trip the lobby text rests on. */
  lemma DecodeInverse(r: Roster)
    requires Valid(r)
    ensures Decode(Encode(r)) == Some(r)
  {
    AllMissing(r);
    EncodeParts(SortedIds(r.Keys), r, map[]);
    ValuesCount(r);
  }

  /** Equal texts mean equal rosters, which is what comparing texts relies on. */
  lemma EncodeInjective(r: Roster, s: Roster)
    requires Valid(r) && Valid(s)
    ensures Encode(r) == Encode(s) <==> r == s
  {
    DecodeInverse(r);
    DecodeInverse(s);
  }

  lemma EncodeEmpty(r: Roster)
    ensures Encode(r) == "" <==> r == map[]
  {
  }

  // How long the text can get

  lemma {:induction false} BoundedSize(s: set<Address>, lo: int, hi: int)
    requires lo <= hi && forall a :: a in s ==> lo <= a < hi
    ensures |s| <= hi - lo
    decreases hi - lo
  {
    if lo == hi {
      assert s == {};
    } else {
      var rest := s - set a | a in s && a == hi - 1;
      if exists a :: a in s && a == hi - 1 {
        var last :| last in s && last == hi - 1;
        assert rest == s - {last};
      } else {
        assert rest == s;
      }
      BoundedSize(rest, lo, hi - 1);
    }
  }

  /** At most 254 members: there are no more addresses. */
  lemma RosterSize(r: Roster)
    requires Valid(r)
    ensures |r| <= 254
  {
    ValuesCount(r);
    forall a | a in r.Values ensures FIRST_HOST <= a <= LAST_HOST {
      var x :| x in r && r[x] == a;
      assert IsMemberAddress(a);
    }
    BoundedSize(r.Values, FIRST_HOST, LAST_HOST + 1);
  }

  lemma EntryLength(id: SteamId, a: Address)
    requires id < Power10(19) && IsMemberAddress(a)
    ensures |Entry(id, a)| <= 31
  {
    DecimalLength(id, 19);
    var p := Packed(a);
    assert p[0] == 10 && p[1] == 77 && p[2] == 0 by {
      assert a / 256 == PREFIX;
      assert a / 0x1_0000 == a / 256 / 256 && a / 0x100_0000 == a / 256 / 0x1_0000;
    }
    assert Power10(3) == 10 * Power10(2) == 100 * Power10(1) == 1000 * Power10(0);
    DecimalLength(p[3], 3);
    assert Decimal(10) == Decimal(1) + ['0'] && Decimal(77) == Decimal(7) + ['7'];
  }

  lemma {:induction false} EncodeLength(ids: seq<SteamId>, r: Roster)
    requires forall i :: 0 <= i < |ids| ==> ids[i] in r && ids[i] < Power10(19) && IsMemberAddress(r[ids[i]])
    ensures |EncodeIds(ids, r)| <= 32 * |ids|
  {
    if ids != [] {
      EntryLength(ids[0], r[ids[0]]);
      EncodeLength(ids[1..], r);
    }
  }

  /** The text of any roster of ids of up to 19 digits fits Steam's 8192 characters. */
  lemma EncodeFits(r: Roster)
    requires Valid(r) && forall x :: x in r ==> x < Power10(19)
    ensures |Encode(r)| < 8192
  {
    RosterSize(r);
    var ids: seq<SteamId> := SortedIds(r.Keys);
    SortedMembers(r.Keys);
    forall i | 0 <= i < |ids| ensures ids[i] in r && ids[i] < Power10(19) && IsMemberAddress(r[ids[i]]) {
      assert ids[i] in r.Keys;
    }
    EncodeLength(ids, r);
    assert |r.Keys| == |r|;
  }
}
