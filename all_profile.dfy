/**
 * The admin profile list: a tab (pending, process, approve, deleted) picks
 * profiles by their account status or deletion mark, then a search box
 * narrows them by user id, guardian name or WhatsApp number.
 */
module AllProfile {
  import opened Wrappers
  import opened Strings
  import opened Seqs

  datatype Tab = Pending | Process | Approve | Deleted

  /**
   * The fields of a profile that the list reads. `userId` is taken to be a
   * string (the id of the user), which is what the search assumes.
   */
  datatype Profile = Profile(
    id: string,
    userId: Option<string>,
    guardianName: Option<string>,
    whatsappNumber: Option<string>,
    accountStatus: Option<string>,
    isDeleted: Option<bool>)

  /** `!!p.isDeleted`. */
  predicate Truthy(b: Option<bool>) {
    b == Some(true)
  }

  /** `(p.accountStatus || "").toLowerCase()`. */
  function Status(p: Profile): string {
    ToLower(OrEmpty(p.accountStatus))
  }

  /** The tab test of the first `filter`. */
  predicate InTab(tab: Tab, p: Profile) {
    match tab
    case Deleted => Truthy(p.isDeleted)
    case Approve => Status(p) == "approve" || Status(p) == "approved"
    case Pending => Status(p) == "pending"
    case Process => Status(p) == "process"
  }

  /** The search test of the second `filter`: the trimmed, lower-cased query in one of three fields. */
  predicate MatchesSearch(search: string, p: Profile) {
    var q := ToLower(Trim(search));
    q == ""
    || Contains(ToLower(OrEmpty(p.userId)), q)
    || Contains(ToLower(OrEmpty(p.guardianName)), q)
    || Contains(ToLower(OrEmpty(p.whatsappNumber)), q)
  }

  function TabTest(tab: Tab): Profile -> bool {
    p => InTab(tab, p)
  }

  function SearchTest(search: string): Profile -> bool {
    p => MatchesSearch(search, p)
  }

  /** `filtered`: the tab filter, then the search filter. */
  function Filtered(profiles: seq<Profile>, tab: Tab, search: string): (r: seq<Profile>)
    ensures |r| <= |profiles|
  {
    Filter(SearchTest(search), Filter(TabTest(tab), profiles))
  }

  /** The list keeps, in their order, exactly the profiles that pass both tests. */
  lemma FilteredExactly(profiles: seq<Profile>, tab: Tab, search: string)
    ensures var r := Filtered(profiles, tab, search);
      IsSubsequence(r, profiles)
      && (forall i :: 0 <= i < |r| ==> InTab(tab, r[i]) && MatchesSearch(search, r[i]))
      && (forall i :: 0 <= i < |profiles| && InTab(tab, profiles[i]) && MatchesSearch(search, profiles[i])
            ==> profiles[i] in r)
  {
    var r := Filtered(profiles, tab, search);
    FilterTwice(TabTest(tab), SearchTest(search), profiles);
    forall i | 0 <= i < |r| ensures InTab(tab, r[i]) && MatchesSearch(search, r[i]) {
      assert TabTest(tab)(r[i]) && SearchTest(search)(r[i]);
    }
    forall i | 0 <= i < |profiles| && InTab(tab, profiles[i]) && MatchesSearch(search, profiles[i])
      ensures profiles[i] in r
    {
      assert TabTest(tab)(profiles[i]) && SearchTest(search)(profiles[i]);
    }
  }

  /** Each entry passing both tests is kept as often as it occurs; every other one is dropped. */
  lemma FilteredCounts(profiles: seq<Profile>, tab: Tab, search: string)
    ensures var r := Filtered(profiles, tab, search);
      forall p :: multiset(r)[p] == if InTab(tab, p) && MatchesSearch(search, p) then multiset(profiles)[p] else 0
  {
    var r := Filtered(profiles, tab, search);
    FilterMultiset(TabTest(tab), profiles);
    FilterMultiset(SearchTest(search), Filter(TabTest(tab), profiles));
    forall p ensures multiset(r)[p] == if InTab(tab, p) && MatchesSearch(search, p) then multiset(profiles)[p] else 0 {
      assert TabTest(tab)(p) == InTab(tab, p) && SearchTest(search)(p) == MatchesSearch(search, p);
    }
  }

  /** A blank search keeps the whole tab. */
  lemma BlankSearchKeepsTab(profiles: seq<Profile>, tab: Tab, search: string)
    requires IsBlank(search)
    ensures Filtered(profiles, tab, search) == Filter(TabTest(tab), profiles)
  {
    assert forall p :: MatchesSearch(search, p);
  }

  /** A profile without an account status is in no status tab. */
  lemma MissingStatusInNoStatusTab(p: Profile, tab: Tab)
    requires p.accountStatus.None? && tab != Deleted
    ensures !InTab(tab, p)
  {
    assert Status(p) == "";
  }

  /** The status tabs look only at the status: a deleted profile stays in them. */
  lemma StatusTabsIgnoreDeletion(p: Profile, tab: Tab, deleted: Option<bool>)
    requires tab != Deleted
    ensures InTab(tab, p.(isDeleted := deleted)) == InTab(tab, p)
  {
  }

  /** The status column: "Deleted" for a deleted profile, otherwise the stored status (nothing when absent). */
  function StatusCell(p: Profile): (r: Option<string>)
    ensures Truthy(p.isDeleted) ==> r == Some("Deleted")
    ensures !Truthy(p.isDeleted) ==> r == p.accountStatus
  {
    if Truthy(p.isDeleted) then Some("Deleted") else p.accountStatus
  }
}
