/**
 * The property screen: buildings, the flats (units) of the selected building,
 * and the residents of the selected flat. A resident profile refers to its
 * building and flat either by the id string or by a populated object.
 */
module BuildingManagement {
  import opened Wrappers
  import opened Seqs

  /** A reference to a building or flat: absent (or null), the id itself, or a populated object. */
  datatype Ref = Absent | Id(id: string) | Populated(objectId: string)

  datatype Building = Building(id: string, name: string)

  /** A flat. Its `buildingId` is compared as it arrives, so the object form is kept apart. */
  datatype Flat = Flat(id: string, name: string, buildingId: Ref)

  datatype Resident = Resident(id: string, buildingId: Ref, flatId: Ref)

  /** `typeof r === "object" ? r?._id : r`: the id a reference stands for. */
  function RefId(r: Ref): (id: Option<string>)
    ensures r.Absent? <==> id.None?
    ensures r.Id? ==> id == Some(r.id)
    ensures r.Populated? ==> id == Some(r.objectId)
  {
    match r
    case Absent => None
    case Id(s) => Some(s)
    case Populated(s) => Some(s)
  }

  predicate LivesIn(b: string, u: Resident) {
    RefId(u.buildingId) == Some(b)
  }

  function BuildingTest(b: string): Resident -> bool {
    u => LivesIn(b, u)
  }

  /** `getResidentCount(b)`: how many residents refer to building b. */
  function ResidentCount(users: seq<Resident>, b: string): (n: nat)
    ensures n <= |users|
  {
    |Filter(BuildingTest(b), users)|
  }

  /** The resident counts of the listed buildings, added up. */
  function TotalResidents(users: seq<Resident>, ids: seq<string>): nat {
    if ids == [] then 0 else ResidentCount(users, ids[0]) + TotalResidents(users, ids[1..])
  }

  /** How many of the listed buildings the resident u is counted for. */
  function Hits(u: Resident, ids: seq<string>): nat {
    if ids == [] then 0 else (if LivesIn(ids[0], u) then 1 else 0) + Hits(u, ids[1..])
  }

  lemma {:induction false} NoHits(u: Resident, ids: seq<string>)
    requires forall k :: 0 <= k < |ids| ==> !LivesIn(ids[k], u)
    ensures Hits(u, ids) == 0
    decreases |ids|
  {
    if ids != [] {
      NoHits(u, ids[1..]);
    }
  }

  /** A resident refers to one building, so among distinct ids at most one counts it. */
  lemma {:induction false} HitsAtMostOne(u: Resident, ids: seq<string>)
    requires Distinct(ids)
    ensures Hits(u, ids) <= 1
    decreases |ids|
  {
    if ids != [] {
      if LivesIn(ids[0], u) {
        forall k | 0 <= k < |ids[1..]| ensures !LivesIn(ids[1..][k], u) {
          assert ids[1..][k] == ids[k + 1] != ids[0];
        }
        NoHits(u, ids[1..]);
      } else {
        HitsAtMostOne(u, ids[1..]);
      }
    }
  }

  lemma {:induction false} TotalOfNobody(ids: seq<string>)
    ensures TotalResidents([], ids) == 0
    decreases |ids|
  {
    if ids != [] {
      TotalOfNobody(ids[1..]);
    }
  }

  /** Taking the first resident off lowers the total by the number of buildings it was counted for. */
  lemma {:induction false} TotalStep(users: seq<Resident>, ids: seq<string>)
    requires users != []
    ensures TotalResidents(users, ids) == Hits(users[0], ids) + TotalResidents(users[1..], ids)
    decreases |ids|
  {
    if ids != [] {
      TotalStep(users, ids[1..]);
    }
  }

  /** Counts over distinct building ids never add up to more than the number of residents. */
  lemma {:induction false} ResidentCountsBounded(users: seq<Resident>, ids: seq<string>)
    requires Distinct(ids)
    ensures TotalResidents(users, ids) <= |users|
    decreases |users|
  {
    if users == [] {
      TotalOfNobody(ids);
    } else {
      TotalStep(users, ids);
      HitsAtMostOne(users[0], ids);
      ResidentCountsBounded(users[1..], ids);
    }
  }

  predicate LivesInFlat(f: string, u: Resident) {
    RefId(u.flatId) == Some(f)
  }

  function FlatTest(f: string): Resident -> bool {
    u => LivesInFlat(f, u)
  }

  /**
   * `getFlatResidents()`: nothing while no flat is selected (an empty id is
   * falsy too), otherwise, in order, the residents that refer to the flat.
   */
  function FlatResidents(users: seq<Resident>, selectedFlatId: Option<string>): (r: seq<Resident>)
    ensures selectedFlatId.None? || selectedFlatId == Some("") ==> r == []
    ensures selectedFlatId.Some? && selectedFlatId.value != "" ==>
      IsSubsequence(r, users)
      && (forall i :: 0 <= i < |r| ==> RefId(r[i].flatId) == selectedFlatId)
      && (forall i :: 0 <= i < |users| && RefId(users[i].flatId) == selectedFlatId ==> users[i] in r)
      && (forall u :: multiset(r)[u] == if RefId(u.flatId) == selectedFlatId then multiset(users)[u] else 0)
  {
    if selectedFlatId.None? || selectedFlatId.value == "" then []
    else
      var r := Filter(FlatTest(selectedFlatId.value), users);
      assert forall i :: 0 <= i < |r| ==> FlatTest(selectedFlatId.value)(r[i]);
      FilterMultiset(FlatTest(selectedFlatId.value), users);
      r
  }

  function UnitTest(b: string): Flat -> bool {
    (f: Flat) => f.buildingId == Id(b)
  }

  /** `flats.filter((f) => f.buildingId === b)`: the units of building b, by plain comparison. */
  function UnitsOf(flats: seq<Flat>, b: string): (r: seq<Flat>)
    ensures IsSubsequence(r, flats)
    ensures forall i :: 0 <= i < |r| ==> r[i].buildingId == Id(b)
    ensures forall i :: 0 <= i < |flats| && flats[i].buildingId == Id(b) ==> flats[i] in r
    ensures forall f :: multiset(r)[f] == if f.buildingId == Id(b) then multiset(flats)[f] else 0
  {
    var r := Filter(UnitTest(b), flats);
    assert forall i :: 0 <= i < |r| ==> UnitTest(b)(r[i]);
    FilterMultiset(UnitTest(b), flats);
    r
  }

  /**
   * The resident count normalises a populated reference and the unit list
   * does not: the same object form counts a resident but never a unit.
   */
  lemma PopulatedRefCountsOnlyResidents(u: Resident, f: Flat, b: string)
    ensures ResidentCount([u.(buildingId := Populated(b))], b) == 1
    ensures UnitsOf([f.(buildingId := Populated(b))], b) == []
  {
    var u' := u.(buildingId := Populated(b));
    assert Filter(BuildingTest(b), [u']) == [u'];
    var f' := f.(buildingId := Populated(b));
    assert Filter(UnitTest(b), [f']) == Filter(UnitTest(b), [f'][1..]);
  }

  datatype Kind = BuildingKind | FlatKind

  /** A request the screen sends. */
  datatype Request = Delete(url: string) | Reload

  function DeleteUrl(kind: Kind, id: string): (r: string)
    ensures |r| > |id| + 6 && r[|r| - |id|..] == id && r[|r| - |id| - 1] == '/'
    ensures kind == BuildingKind <==> r[1] == 'b'
    ensures kind == BuildingKind ==> |r| == 11 + |id| && r[..11] == "/buildings/"
    ensures kind == FlatKind ==> |r| == 7 + |id| && r[..7] == "/flats/"
  {
    match kind
    case BuildingKind => "/buildings/" + id
    case FlatKind => "/flats/" + id
  }

  /** The selection state of the screen and the requests it has sent. */
  class Selection {
    var selectedBuildingId: Option<string>
    var selectedFlatId: Option<string>
    var requests: seq<Request>

    constructor()
      ensures selectedBuildingId.None? && selectedFlatId.None? && requests == []
    {
      selectedBuildingId := None;
      selectedFlatId := None;
      requests := [];
    }

    /** The units listed for the selected building; nothing while none is selected. */
    function VisibleUnits(flats: seq<Flat>): (r: seq<Flat>)
      reads this
      ensures selectedBuildingId.None? || selectedBuildingId == Some("") ==> r == []
      ensures selectedBuildingId.Some? && selectedBuildingId.value != "" ==>
        IsSubsequence(r, flats)
        && (forall i :: 0 <= i < |r| ==> r[i].buildingId == Id(selectedBuildingId.value))
        && (forall i :: 0 <= i < |flats| && flats[i].buildingId == Id(selectedBuildingId.value) ==> flats[i] in r)
        && (forall f :: multiset(r)[f] == if f.buildingId == Id(selectedBuildingId.value) then multiset(flats)[f] else 0)
    {
      if selectedBuildingId.None? || selectedBuildingId.value == "" then []
      else UnitsOf(flats, selectedBuildingId.value)
    }

    /** The resident table. */
    function VisibleResidents(users: seq<Resident>): (r: seq<Resident>)
      reads this
      ensures selectedFlatId.None? || selectedFlatId == Some("") ==> r == []
      ensures IsSubsequence(r, users)
      ensures forall i :: 0 <= i < |r| ==> RefId(r[i].flatId) == selectedFlatId
      ensures r == FlatResidents(users, selectedFlatId)
    {
      FlatResidents(users, selectedFlatId)
    }

    /** Clicking a building selects it and clears the selected flat. */
    method SelectBuilding(b: string)
      modifies this
      ensures selectedBuildingId == Some(b) && selectedFlatId.None?
      ensures requests == old(requests)
      ensures forall users :: VisibleResidents(users) == []
    {
      selectedBuildingId := Some(b);
      selectedFlatId := None;
    }

    /** Clicking a unit selects it; the building stays selected. */
    method SelectFlat(f: string)
      modifies this
      ensures selectedFlatId == Some(f)
      ensures selectedBuildingId == old(selectedBuildingId) && requests == old(requests)
    {
      selectedFlatId := Some(f);
    }

    /**
     * `handleDelete`: a cancelled dialog changes nothing. A confirmed one sends
     * the delete; when it fails the handler stops there. Otherwise the data is
     * reloaded and the selection of the deleted kind is cleared.
     */
    method HandleDelete(kind: Kind, id: string, confirmed: bool, deleteOk: bool)
      modifies this
      ensures !confirmed ==>
        selectedBuildingId == old(selectedBuildingId) && selectedFlatId == old(selectedFlatId)
        && requests == old(requests)
      ensures confirmed && !deleteOk ==>
        selectedBuildingId == old(selectedBuildingId) && selectedFlatId == old(selectedFlatId)
        && requests == old(requests) + [Delete(DeleteUrl(kind, id))]
      ensures confirmed && deleteOk ==>
        requests == old(requests) + [Delete(DeleteUrl(kind, id)), Reload]
        && selectedBuildingId == (if kind == BuildingKind then None else old(selectedBuildingId))
        && selectedFlatId == (if kind == FlatKind then None else old(selectedFlatId))
    {
      if confirmed {
        requests := requests + [Delete(DeleteUrl(kind, id))];
        if deleteOk {
          requests := requests + [Reload];
          if kind == BuildingKind {
            selectedBuildingId := None;
          } else {
            selectedFlatId := None;
          }
        }
      }
    }
  }
}
