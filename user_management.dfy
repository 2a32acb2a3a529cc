/** The resident access list: each resident's access can be blocked or restored. */
module UserManagement {

  datatype PaymentStatus = Paid | Due | Overdue

  datatype User = User(
    id: string,
    name: string,
    building: string,
    flat: string,
    room: string,
    paymentStatus: PaymentStatus,
    isRestricted: bool,
    joinDate: string,
    deadline: string)

  /** The `setUsers` updater of `toggleRestriction(id)`: every user with that id has its restriction negated. */
  function ToggleRestriction(users: seq<User>, id: string): (r: seq<User>)
    ensures |r| == |users|
    ensures forall i :: 0 <= i < |users| && users[i].id == id ==>
      r[i] == users[i].(isRestricted := !users[i].isRestricted)
    ensures forall i :: 0 <= i < |users| && users[i].id != id ==> r[i] == users[i]
  {
    seq(|users|, i requires 0 <= i < |users| =>
      if users[i].id == id then users[i].(isRestricted := !users[i].isRestricted) else users[i])
  }

  /** Toggling twice restores the list. */
  lemma ToggleTwice(users: seq<User>, id: string)
    ensures ToggleRestriction(ToggleRestriction(users, id), id) == users
  {
    var twice := ToggleRestriction(ToggleRestriction(users, id), id);
    assert forall i :: 0 <= i < |users| ==> twice[i] == users[i];
  }

  /** An id that no user has leaves the list as it is. */
  lemma ToggleUnknownId(users: seq<User>, id: string)
    requires forall i :: 0 <= i < |users| ==> users[i].id != id
    ensures ToggleRestriction(users, id) == users
  {
  }

  /** A toggle changes the restriction of the matching users and nothing else. */
  lemma ToggleOnlyRestriction(users: seq<User>, id: string, i: int)
    requires 0 <= i < |users|
    ensures var r := ToggleRestriction(users, id);
      r[i].(isRestricted := users[i].isRestricted) == users[i]
      && r[i].isRestricted == (if users[i].id == id then !users[i].isRestricted else users[i].isRestricted)
  {
  }

  /** The access button's label. */
  function AccessLabel(u: User): (text: string)
    ensures text == "Blocked" <==> u.isRestricted
    ensures !u.isRestricted ==> text == "Active"
  {
    if u.isRestricted then "Blocked" else "Active"
  }

  /**
   * The rows of the table. The search term is stored but never applied: the
   * table maps over `users`, so every user is shown, in order.
   */
  function TableRows(users: seq<User>, searchTerm: string): (r: seq<User>)
    ensures r == users
  {
    users
  }
}
