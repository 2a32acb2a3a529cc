/** The meal control panel: per-resident breakfast, lunch and dinner switches and a name/room search. */
module MealControl {
  import opened Strings
  import opened Seqs

  datatype MealType = Breakfast | Lunch | Dinner

  datatype MealStatus = MealStatus(
    id: string,
    name: string,
    room: string,
    breakfast: bool,
    lunch: bool,
    dinner: bool,
    lastUpdated: string)

  function Flag(row: MealStatus, t: MealType): bool {
    match t
    case Breakfast => row.breakfast
    case Lunch => row.lunch
    case Dinner => row.dinner
  }

  /** `{ ...item, [type]: !item[type] }`. */
  function Flip(row: MealStatus, t: MealType): (r: MealStatus)
    ensures Flag(r, t) == !Flag(row, t)
    ensures forall u :: u != t ==> Flag(r, u) == Flag(row, u)
    ensures r.id == row.id && r.name == row.name && r.room == row.room && r.lastUpdated == row.lastUpdated
  {
    match t
    case Breakfast => row.(breakfast := !row.breakfast)
    case Lunch => row.(lunch := !row.lunch)
    case Dinner => row.(dinner := !row.dinner)
  }

  /** The `setMealData` updater of `toggleMeal(id, t)`: every row with that id gets flag t flipped. */
  function ToggleMeal(rows: seq<MealStatus>, id: string, t: MealType): (r: seq<MealStatus>)
    ensures |r| == |rows|
    ensures forall i :: 0 <= i < |rows| && rows[i].id == id ==> r[i] == Flip(rows[i], t)
    ensures forall i :: 0 <= i < |rows| && rows[i].id != id ==> r[i] == rows[i]
  {
    seq(|rows|, i requires 0 <= i < |rows| => if rows[i].id == id then Flip(rows[i], t) else rows[i])
  }

  /** Flipping twice gives the row back. */
  lemma FlipFlip(row: MealStatus, t: MealType)
    ensures Flip(Flip(row, t), t) == row
  {
  }

  /** Toggling the same switch twice restores the list. */
  lemma ToggleTwice(rows: seq<MealStatus>, id: string, t: MealType)
    ensures ToggleMeal(ToggleMeal(rows, id, t), id, t) == rows
  {
    var once := ToggleMeal(rows, id, t);
    var twice := ToggleMeal(once, id, t);
    forall i | 0 <= i < |rows| ensures twice[i] == rows[i] {
      if rows[i].id == id {
        FlipFlip(rows[i], t);
      }
    }
  }

  /** An id that no row has leaves the list as it is. */
  lemma ToggleUnknownId(rows: seq<MealStatus>, id: string, t: MealType)
    requires forall i :: 0 <= i < |rows| ==> rows[i].id != id
    ensures ToggleMeal(rows, id, t) == rows
  {
  }

  /** The row's switch t is negated; its other switches, its other fields and all other rows stay. */
  lemma ToggleChangesOneSwitch(rows: seq<MealStatus>, id: string, t: MealType, i: int, u: MealType)
    requires 0 <= i < |rows|
    ensures var r := ToggleMeal(rows, id, t);
      Flag(r[i], u) == (if rows[i].id == id && u == t then !Flag(rows[i], u) else Flag(rows[i], u))
      && r[i].id == rows[i].id && r[i].name == rows[i].name && r[i].room == rows[i].room
  {
  }

  /** The search test: the term in the name or the room, case-sensitively. */
  predicate Listed(searchTerm: string, row: MealStatus) {
    Contains(row.name, searchTerm) || Contains(row.room, searchTerm)
  }

  function SearchTest(searchTerm: string): MealStatus -> bool {
    row => Listed(searchTerm, row)
  }

  /** The rows the table shows, in order. */
  function Visible(rows: seq<MealStatus>, searchTerm: string): (r: seq<MealStatus>)
    ensures IsSubsequence(r, rows)
    ensures forall i :: 0 <= i < |r| ==> Listed(searchTerm, r[i])
    ensures forall i :: 0 <= i < |rows| && Listed(searchTerm, rows[i]) ==> rows[i] in r
    ensures forall row :: multiset(r)[row] == if Listed(searchTerm, row) then multiset(rows)[row] else 0
  {
    var r := Filter(SearchTest(searchTerm), rows);
    assert forall i :: 0 <= i < |r| ==> SearchTest(searchTerm)(r[i]);
    FilterMultiset(SearchTest(searchTerm), rows);
    r
  }

  /** An empty term shows every row. */
  lemma EmptyTermShowsAll(rows: seq<MealStatus>)
    ensures Visible(rows, "") == rows
  {
    forall row: MealStatus ensures Listed("", row) {
      ContainsEmpty(row.name);
    }
  }
}
