/**
 * The admin user directory: tabs for active, blocked and deleted users, then
 * a search over name, email and phone.
 */
module AllUser {
  import opened Wrappers
  import opened Strings
  import opened Seqs

  datatype Tab = Active | Blocked | Deleted

  /** The fields of a user that the directory reads. */
  datatype User = User(
    id: string,
    name: Option<string>,
    phone: Option<string>,
    email: Option<string>,
    status: Option<string>,
    isDeleted: Option<bool>)

  /** `(u.status || "").toLowerCase()`. */
  function Status(u: User): string {
    ToLower(OrEmpty(u.status))
  }

  /**
   * The tab test: the deleted tab wants `isDeleted === true`; the other two
   * drop every user whose `isDeleted` is truthy and then compare the status.
   */
  predicate InTab(tab: Tab, u: User) {
    if tab == Deleted then u.isDeleted == Some(true)
    else if u.isDeleted == Some(true) then false
    else if tab == Active then Status(u) == "active"
    else Status(u) == "blocked"
  }

  /** The trimmed, lower-cased query in the name, email or phone. */
  predicate MatchesSearch(search: string, u: User) {
    var q := ToLower(Trim(search));
    q == ""
    || Contains(ToLower(OrEmpty(u.name)), q)
    || Contains(ToLower(OrEmpty(u.email)), q)
    || Contains(ToLower(OrEmpty(u.phone)), q)
  }

  function TabTest(tab: Tab): User -> bool {
    u => InTab(tab, u)
  }

  function SearchTest(search: string): User -> bool {
    u => MatchesSearch(search, u)
  }

  /** `filtered`: the tab filter, then the search filter. */
  function Filtered(users: seq<User>, tab: Tab, search: string): (r: seq<User>)
    ensures |r| <= |users|
  {
    Filter(SearchTest(search), Filter(TabTest(tab), users))
  }

  /** The directory keeps, in their order, exactly the users that pass both tests. */
  lemma FilteredExactly(users: seq<User>, tab: Tab, search: string)
    ensures var r := Filtered(users, tab, search);
      IsSubsequence(r, users)
      && (forall i :: 0 <= i < |r| ==> InTab(tab, r[i]) && MatchesSearch(search, r[i]))
      && (forall i :: 0 <= i < |users| && InTab(tab, users[i]) && MatchesSearch(search, users[i])
            ==> users[i] in r)
  {
    var r := Filtered(users, tab, search);
    FilterTwice(TabTest(tab), SearchTest(search), users);
    forall i | 0 <= i < |r| ensures InTab(tab, r[i]) && MatchesSearch(search, r[i]) {
      assert TabTest(tab)(r[i]) && SearchTest(search)(r[i]);
    }
    forall i | 0 <= i < |users| && InTab(tab, users[i]) && MatchesSearch(search, users[i])
      ensures users[i] in r
    {
      assert TabTest(tab)(users[i]) && SearchTest(search)(users[i]);
    }
  }

  /** Each entry passing both tests is kept as often as it occurs; every other one is dropped. */
  lemma FilteredCounts(users: seq<User>, tab: Tab, search: string)
    ensures var r := Filtered(users, tab, search);
      forall u :: multiset(r)[u] == if InTab(tab, u) && MatchesSearch(search, u) then multiset(users)[u] else 0
  {
    var r := Filtered(users, tab, search);
    FilterMultiset(TabTest(tab), users);
    FilterMultiset(SearchTest(search), Filter(TabTest(tab), users));
    forall u ensures multiset(r)[u] == if InTab(tab, u) && MatchesSearch(search, u) then multiset(users)[u] else 0 {
      assert TabTest(tab)(u) == InTab(tab, u) && SearchTest(search)(u) == MatchesSearch(search, u);
    }
  }

  /** A blank search keeps the whole tab. */
  lemma BlankSearchKeepsTab(users: seq<User>, tab: Tab, search: string)
    requires IsBlank(search)
    ensures Filtered(users, tab, search) == Filter(TabTest(tab), users)
  {
    assert forall u :: MatchesSearch(search, u);
  }

  /** No user is in two tabs. */
  lemma TabsDisjoint(u: User, t1: Tab, t2: Tab)
    requires InTab(t1, u) && InTab(t2, u)
    ensures t1 == t2
  {
  }

  /** A user marked deleted is never listed as active or blocked. */
  lemma DeletedOnlyInDeletedTab(u: User, tab: Tab)
    requires u.isDeleted == Some(true) && tab != Deleted
    ensures !InTab(tab, u)
  {
  }

  /** A user without a status is in neither the active nor the blocked tab. */
  lemma MissingStatusInNoStatusTab(u: User, tab: Tab)
    requires u.status.None? && tab != Deleted
    ensures !InTab(tab, u)
  {
    assert Status(u) == "";
  }
}
