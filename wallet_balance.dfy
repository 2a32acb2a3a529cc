/**
 * The wallet balance screen: the list of wallets with a search box, and a
 * form that raises or lowers the balance of the selected wallet.
 */
module WalletBalance {
  import opened Wrappers
  import opened Strings
  import opened Seqs

  datatype Owner = Owner(id: string, name: Option<string>, email: Option<string>, phone: string)

  /** A wallet. Its owner may be missing from the reply. */
  datatype WalletUser = WalletUser(
    id: string,
    owner: Option<Owner>,
    balance: int,
    totalDeposited: int,
    totalSpent: int,
    isActive: bool)

  /** The part of a reply body the screen looks at. */
  datatype Body = ArrayBody(items: seq<WalletUser>) | ObjectBody(data: Option<Body>) | OtherBody

  /** An array body as it is, else its `data` when that is an array, else nothing. */
  function Normalize(body: Body): (ws: seq<WalletUser>)
    ensures body.ArrayBody? ==> ws == body.items
    ensures body.ObjectBody? && body.data.Some? && body.data.value.ArrayBody? ==> ws == body.data.value.items
    ensures !body.ArrayBody? && !(body.ObjectBody? && body.data.Some? && body.data.value.ArrayBody?) ==> ws == []
  {
    match body
    case ArrayBody(items) => items
    case ObjectBody(Some(ArrayBody(items))) => items
    case _ => []
  }

  /** Only one level of `data` is looked into. */
  lemma NormalizeOneLevel(ws: seq<WalletUser>)
    ensures Normalize(ObjectBody(Some(ArrayBody(ws)))) == ws
    ensures Normalize(ObjectBody(Some(ObjectBody(Some(ArrayBody(ws)))))) == []
  {
  }

  /** `name?.toLowerCase().includes(q)`: false when the field is missing. */
  predicate FieldMatches(field: Option<string>, q: string) {
    field.Some? && Contains(ToLower(field.value), q)
  }

  /** The search test: the lower-cased, untrimmed query in the owner's name or email. */
  predicate Listed(search: string, w: WalletUser) {
    var q := ToLower(search);
    w.owner.Some? && (FieldMatches(w.owner.value.name, q) || FieldMatches(w.owner.value.email, q))
  }

  function SearchTest(search: string): WalletUser -> bool {
    w => Listed(search, w)
  }

  /** `filteredWallets`: the listed wallets, in order. */
  function FilteredWallets(wallets: seq<WalletUser>, search: string): (r: seq<WalletUser>)
    ensures IsSubsequence(r, wallets)
    ensures forall i :: 0 <= i < |r| ==> Listed(search, r[i])
    ensures forall i :: 0 <= i < |wallets| && Listed(search, wallets[i]) ==> wallets[i] in r
    ensures forall w :: multiset(r)[w] == if Listed(search, w) then multiset(wallets)[w] else 0
  {
    var r := Filter(SearchTest(search), wallets);
    assert forall i :: 0 <= i < |r| ==> SearchTest(search)(r[i]);
    FilterMultiset(SearchTest(search), wallets);
    r
  }

  /** With an empty search a wallet is listed iff it has an owner with a name or an email. */
  lemma EmptySearchListsOwned(w: WalletUser)
    ensures Listed("", w) <==> w.owner.Some? && (w.owner.value.name.Some? || w.owner.value.email.Some?)
  {
    assert ToLower("") == "";
    if w.owner.Some? && w.owner.value.name.Some? {
      ContainsEmpty(ToLower(w.owner.value.name.value));
    }
    if w.owner.Some? && w.owner.value.email.Some? {
      ContainsEmpty(ToLower(w.owner.value.email.value));
    }
  }

  /** The amount field: never set, not a number, or a number. */
  datatype Amount = Undefined | NaN | Num(n: int)

  /** `amount <= 0`, which is false for undefined and NaN. */
  predicate AtMostZero(a: Amount) {
    a.Num? && a.n <= 0
  }

  /** The guard of `handleAdjustBalance`. */
  predicate Rejected(selected: Option<WalletUser>, amount: Amount, reason: string) {
    selected.None? || AtMostZero(amount) || reason == ""
  }

  /** The guard lets the initial undefined amount and NaN through. */
  lemma GuardAdmitsUndefinedAndNaN(w: WalletUser, reason: string)
    requires reason != ""
    ensures !Rejected(Some(w), Undefined, reason) && !Rejected(Some(w), NaN, reason)
  {
  }

  datatype Operation = Increase | Decrease

  datatype Request = GetWallets | Patch(userId: string, amount: Amount, operation: Operation, reason: string)

  datatype Alert = Warning | Updated | Error(message: string)

  const AdjustFailedMessage := "Balance update failed"
  const LoadFailedMessage := "Failed to load wallet data"

  /** `message || fallback`. */
  function MessageOr(message: Option<string>, fallback: string): (m: string)
    ensures OrEmpty(message) == "" ==> m == fallback
    ensures OrEmpty(message) != "" ==> m == message.value
  {
    if OrEmpty(message) == "" then fallback else message.value
  }

  class WalletPage {
    var wallets: seq<WalletUser>
    var search: string
    var selectedUser: Option<WalletUser>
    var amount: Amount
    var reason: string
    var operation: Operation
    var loading: bool
    var requests: seq<Request>
    var alerts: seq<Alert>

    constructor ()
      ensures wallets == [] && search == "" && selectedUser.None? && amount == Undefined
      ensures reason == "" && operation == Increase && !loading && requests == [] && alerts == []
    {
      wallets := [];
      search := "";
      selectedUser := None;
      amount := Undefined;
      reason := "";
      operation := Increase;
      loading := false;
      requests := [];
      alerts := [];
    }

    function Visible(): seq<WalletUser>
      reads this
    {
      FilteredWallets(wallets, search)
    }

    /** `fetchWallets` up to the await. */
    method RequestWallets()
      modifies this
      ensures requests == old(requests) + [GetWallets]
      ensures wallets == old(wallets) && selectedUser == old(selectedUser) && amount == old(amount)
      ensures reason == old(reason) && operation == old(operation) && loading == old(loading)
      ensures alerts == old(alerts) && search == old(search)
    {
      requests := requests + [GetWallets];
    }

    /** `fetchWallets` after the await: the normalised body, or an empty list and an alert on error. */
    method WalletsReplied(reply: Result<Body, Option<string>>)
      modifies this
      ensures reply.Success? ==> wallets == Normalize(reply.value) && alerts == old(alerts)
      ensures reply.Failure? ==> wallets == [] && alerts == old(alerts) + [Error(MessageOr(reply.error, LoadFailedMessage))]
      ensures requests == old(requests) && selectedUser == old(selectedUser) && amount == old(amount)
      ensures reason == old(reason) && operation == old(operation) && loading == old(loading)
      ensures search == old(search)
    {
      match reply
      case Success(body) =>
        wallets := Normalize(body);
      case Failure(message) =>
        alerts := alerts + [Error(MessageOr(message, LoadFailedMessage))];
        wallets := [];
    }

    /**
     * `handleAdjustBalance` up to the await. A rejected form only warns. An
     * accepted one turns loading on and sends the PATCH for the owner's id;
     * a selected wallet without an owner throws while the request is built,
     * which ends in the error alert with loading off again.
     */
    method SubmitAdjust() returns (sent: bool)
      modifies this
      ensures Rejected(old(selectedUser), old(amount), old(reason)) ==>
        !sent && alerts == old(alerts) + [Warning] && requests == old(requests) && loading == old(loading)
      ensures !Rejected(old(selectedUser), old(amount), old(reason)) && old(selectedUser).value.owner.None? ==>
        !sent && alerts == old(alerts) + [Error(AdjustFailedMessage)] && requests == old(requests) && !loading
      ensures !Rejected(old(selectedUser), old(amount), old(reason)) && old(selectedUser).value.owner.Some? ==>
        sent && loading && alerts == old(alerts)
        && requests == old(requests) + [Patch(old(selectedUser).value.owner.value.id, amount, operation, reason)]
      ensures sent <==> !Rejected(old(selectedUser), old(amount), old(reason)) && old(selectedUser).value.owner.Some?
      ensures wallets == old(wallets) && selectedUser == old(selectedUser) && amount == old(amount)
      ensures reason == old(reason) && operation == old(operation) && search == old(search)
    {
      if Rejected(selectedUser, amount, reason) {
        alerts := alerts + [Warning];
        return false;
      }
      loading := true;
      var owner := selectedUser.value.owner;
      if owner.None? {
        alerts := alerts + [Error(AdjustFailedMessage)];
        loading := false;
        return false;
      }
      requests := requests + [Patch(owner.value.id, amount, operation, reason)];
      sent := true;
    }

    /**
     * `handleAdjustBalance` after the await. Success resets the form and asks
     * for the wallets again; failure alerts. Loading goes off either way.
     */
    method AdjustReplied(reply: Result<(), Option<string>>)
      modifies this
      ensures !loading
      ensures reply.Success? ==>
        selectedUser.None? && amount == Num(0) && reason == "" && operation == Increase
        && alerts == old(alerts) + [Updated] && requests == old(requests) + [GetWallets]
      ensures reply.Failure? ==>
        selectedUser == old(selectedUser) && amount == old(amount) && reason == old(reason)
        && operation == old(operation) && requests == old(requests)
        && alerts == old(alerts) + [Error(MessageOr(reply.error, AdjustFailedMessage))]
      ensures wallets == old(wallets) && search == old(search)
    {
      match reply
      case Success(_) =>
        alerts := alerts + [Updated];
        selectedUser := None;
        amount := Num(0);
        reason := "";
        operation := Increase;
        requests := requests + [GetWallets];
        loading := false;
      case Failure(message) =>
        alerts := alerts + [Error(MessageOr(message, AdjustFailedMessage))];
        loading := false;
    }
  }

  /** After a successful adjust the reset form is rejected until it is filled in again. */
  lemma ResetFormIsRejected()
    ensures Rejected(None, Num(0), "")
  {
  }
}
