/**
 * The "lock expired orders" page: one request locks the expired meal orders
 * and returns the wallet deductions; the page then loads the details of each
 * user named in them and shows one row per deduction.
 */
module LockExpired {
  import opened Wrappers
  import opened Strings
  import opened Seqs

  datatype MealType = Breakfast | Lunch | Dinner

  datatype Meal = Meal(mealType: MealType, quantity: int, price: int, date: string)

  datatype DeductionResult = DeductionResult(
    userId: string,
    totalMealCost: int,
    balanceBefore: int,
    balanceAfter: int,
    status: string,
    meals: seq<Meal>)

  datatype Summary = Summary(totalDeducted: int, successCount: int, failedCount: int, totalUsers: int)

  datatype LockResult = LockResult(lockedCount: int, deductionResults: seq<DeductionResult>, summary: Summary)

  datatype UserData = UserData(id: string, name: string, phone: string, email: string, role: string, status: string)

  /** How the lock request ended: an error (with the server's message, if any), or a reply. */
  datatype LockReply = LockFailed(message: Option<string>) | LockReplied(success: Option<bool>, data: Option<LockResult>)

  /** How one `/user/:id` request ended. */
  datatype UserReply = UserFetchFailed | UserReplied(success: bool, data: UserData)

  const DefaultError := "Request failed"

  /** `[...new Set(xs)]`: each element once, where it first appears. */
  function Unique(xs: seq<string>): (r: seq<string>)
    ensures Distinct(r)
    ensures forall x :: x in r <==> x in xs
    decreases |xs|
  {
    if xs == [] then []
    else
      var init := xs[..|xs| - 1];
      var x := xs[|xs| - 1];
      assert xs == init + [x];
      var r := Unique(init);
      if x in r then r else r + [x]
  }

  /** The position where x first occurs in xs. */
  function FirstIndex(xs: seq<string>, x: string): (k: nat)
    requires x in xs
    ensures k < |xs| && xs[k] == x
    ensures forall j :: 0 <= j < k ==> xs[j] != x
  {
    if xs[0] == x then 0 else 1 + FirstIndex(xs[1..], x)
  }

  lemma FirstIndexOfPrefix(xs: seq<string>, n: nat, x: string)
    requires n <= |xs| && x in xs[..n]
    ensures FirstIndex(xs, x) == FirstIndex(xs[..n], x)
  {
    var k := FirstIndex(xs[..n], x);
    assert xs[k] == x;
  }

  /** The elements of r occur in xs, and in the order of their first occurrence there. */
  ghost predicate InFirstAppearanceOrder(r: seq<string>, xs: seq<string>) {
    (forall i :: 0 <= i < |r| ==> r[i] in xs)
    && forall i, j :: 0 <= i < j < |r| && r[i] in xs && r[j] in xs ==> FirstIndex(xs, r[i]) < FirstIndex(xs, r[j])
  }

  /** The unique ids keep the order in which the ids first appear. */
  lemma {:induction false} UniqueInFirstAppearanceOrder(xs: seq<string>)
    ensures InFirstAppearanceOrder(Unique(xs), xs)
    decreases |xs|
  {
    if xs != [] {
      var n := |xs| - 1;
      var init := xs[..n];
      var x := xs[n];
      assert xs == init + [x];
      var p := Unique(init);
      var r := Unique(xs);
      UniqueInFirstAppearanceOrder(init);
      assert r == if x in p then p else p + [x];
      forall i, j | 0 <= i < j < |r| && r[i] in xs && r[j] in xs ensures FirstIndex(xs, r[i]) < FirstIndex(xs, r[j]) {
        assert r[i] == p[i] && p[i] in init;
        FirstIndexOfPrefix(xs, n, p[i]);
        if j < |p| {
          assert r[j] == p[j] && p[j] in init;
          FirstIndexOfPrefix(xs, n, p[j]);
          assert FirstIndex(init, p[i]) < FirstIndex(init, p[j]);
        } else {
          assert r[j] == x && x !in init;
          assert FirstIndex(xs, x) == n;
          assert FirstIndex(init, p[i]) < n;
        }
      }
    }
  }

  function UserIds(results: seq<DeductionResult>): (ids: seq<string>)
    ensures |ids| == |results|
    ensures forall i :: 0 <= i < |results| ==> ids[i] == results[i].userId
  {
    seq(|results|, i requires 0 <= i < |results| => results[i].userId)
  }

  /** The user map after asking for each of ids in turn: only the successful replies are entered. */
  function FetchedUsers(ids: seq<string>, reply: string -> UserReply): map<string, UserData>
    decreases |ids|
  {
    if ids == [] then map[]
    else
      var m := FetchedUsers(ids[..|ids| - 1], reply);
      var id := ids[|ids| - 1];
      match reply(id)
      case UserReplied(true, data) => m[id := data]
      case _ => m
  }

  /** The map holds exactly the asked ids whose request succeeded, each with the data it returned. */
  lemma {:induction false} FetchedUsersExactly(ids: seq<string>, reply: string -> UserReply)
    ensures var m := FetchedUsers(ids, reply);
      (forall id :: id in m <==> id in ids && reply(id).UserReplied? && reply(id).success)
      && (forall id :: id in m ==> m[id] == reply(id).data)
    decreases |ids|
  {
    if ids != [] {
      var init := ids[..|ids| - 1];
      assert ids == init + [ids[|ids| - 1]];
      FetchedUsersExactly(init, reply);
    }
  }

  /** The text of the error banner. */
  function LockErrorText(message: Option<string>): (text: string)
    ensures text != ""
    ensures message.Some? && message.value != "" ==> text == message.value
    ensures OrEmpty(message) == "" ==> text == DefaultError
  {
    if OrEmpty(message) == "" then DefaultError else message.value
  }

  /** What a meal column shows: the quantity, or a dash. */
  datatype Cell = Quantity(n: int) | Dash

  /** The quantity of the first meal of type t, or a dash when there is none. */
  function MealCell(meals: seq<Meal>, t: MealType): (c: Cell)
    ensures c.Dash? <==> forall i :: 0 <= i < |meals| ==> meals[i].mealType != t
    ensures c.Quantity? ==>
      exists i :: 0 <= i < |meals| && meals[i].mealType == t && meals[i].quantity == c.n
        && forall j :: 0 <= j < i ==> meals[j].mealType != t
  {
    if meals == [] then Dash
    else if meals[0].mealType == t then Quantity(meals[0].quantity)
    else
      var c := MealCell(meals[1..], t);
      assert c.Quantity? ==>
        exists i :: 0 <= i < |meals| && meals[i].mealType == t && meals[i].quantity == c.n
          && forall j :: 0 <= j < i ==> meals[j].mealType != t
      by {
        if c.Quantity? {
          var i :| 0 <= i < |meals[1..]| && meals[1..][i].mealType == t && meals[1..][i].quantity == c.n
            && forall j :: 0 <= j < i ==> meals[1..][j].mealType != t;
          assert meals[i + 1] == meals[1..][i];
          assert forall j :: 1 <= j < i + 1 ==> meals[j] == meals[1..][j - 1];
        }
      }
      c
  }

  /** The state of the page. */
  class LockPage {
    var loading: bool
    var result: Option<LockResult>
    var error: Option<string>
    var usersData: map<string, UserData>
    var loadingUsers: bool
    /** How many lock requests were sent. */
    var lockRequests: nat
    /** The ids of the `/user/:id` requests sent, in order. */
    var userRequests: seq<string>

    constructor ()
      ensures !loading && result.None? && error.None? && usersData == map[] && !loadingUsers
      ensures lockRequests == 0 && userRequests == []
    {
      loading := false;
      result := None;
      error := None;
      usersData := map[];
      loadingUsers := false;
      lockRequests := 0;
      userRequests := [];
    }

    /** `handleLock` up to the await: loading on, error cleared, request sent. */
    method StartLock()
      modifies this
      ensures loading && error.None? && lockRequests == old(lockRequests) + 1
      ensures result == old(result) && usersData == old(usersData) && loadingUsers == old(loadingUsers)
      ensures userRequests == old(userRequests)
    {
      loading := true;
      error := None;
      lockRequests := lockRequests + 1;
    }

    /**
     * `handleLock` after the await: a reply with `success === true` sets the
     * result; an error clears it and shows the message; loading goes off on
     * every path.
     */
    method FinishLock(reply: LockReply)
      modifies this
      ensures !loading
      ensures reply.LockFailed? ==> result.None? && error == Some(LockErrorText(reply.message))
      ensures reply.LockReplied? && reply.success == Some(true) ==> result == reply.data && error == old(error)
      ensures reply.LockReplied? && reply.success != Some(true) ==> result == old(result) && error == old(error)
      ensures usersData == old(usersData) && loadingUsers == old(loadingUsers)
      ensures lockRequests == old(lockRequests) && userRequests == old(userRequests)
    {
      match reply
      case LockFailed(message) =>
        error := Some(LockErrorText(message));
        result := None;
        loading := false;
      case LockReplied(success, data) =>
        if success == Some(true) {
          result := data;
        }
        loading := false;
    }

    /**
     * The effect that loads user details: nothing without deductions;
     * otherwise one request per distinct user id and a fresh map of the
     * users whose request succeeded.
     */
    method FetchUserDetails(reply: string -> UserReply)
      modifies this
      ensures old(result).None? || old(result).value.deductionResults == [] ==>
        usersData == old(usersData) && userRequests == old(userRequests) && loadingUsers == old(loadingUsers)
      ensures old(result).Some? && old(result).value.deductionResults != [] ==>
        var ids := Unique(UserIds(old(result).value.deductionResults));
        userRequests == old(userRequests) + ids
        && usersData == FetchedUsers(ids, reply)
        && !loadingUsers
      ensures result == old(result) && loading == old(loading) && error == old(error)
      ensures lockRequests == old(lockRequests)
    {
      if result.None? || result.value.deductionResults == [] {
        return;
      }
      loadingUsers := true;
      var ids := Unique(UserIds(result.value.deductionResults));
      var userMap: map<string, UserData> := map[];
      for i := 0 to |ids|
        invariant userMap == FetchedUsers(ids[..i], reply)
        invariant userRequests == old(userRequests) + ids[..i]
        invariant result == old(result) && loading == old(loading) && error == old(error)
        invariant lockRequests == old(lockRequests)
      {
        var id := ids[i];
        userRequests := userRequests + [id];
        assert ids[..i + 1][..i] == ids[..i];
        match reply(id)
        case UserReplied(true, data) => userMap := userMap[id := data];
        case _ =>
      }
      assert ids[..|ids|] == ids;
      usersData := userMap;
      loadingUsers := false;
    }
  }

  /** Every key of the user map is one of the deduction user ids, and its request succeeded. */
  lemma UserMapKeys(results: seq<DeductionResult>, reply: string -> UserReply, id: string)
    requires id in FetchedUsers(Unique(UserIds(results)), reply)
    ensures exists i :: 0 <= i < |results| && results[i].userId == id
    ensures reply(id).UserReplied? && reply(id).success
  {
    FetchedUsersExactly(Unique(UserIds(results)), reply);
    var ids := UserIds(results);
    assert id in ids;
    var i :| 0 <= i < |ids| && ids[i] == id;
    assert results[i].userId == id;
  }
}
