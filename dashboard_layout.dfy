/**
 * The dashboard side bar: one menu per role, and the rule that highlights
 * the items whose route is the current path or an ancestor of it.
 */
module DashboardLayout {
  import opened Wrappers
  import opened Seqs

  datatype Role = Admin | User

  const AdminRoot := "/admin-dashboard"
  const UserRoot := "/user-dashboard"

  const LockedMealsRoute := "/meals/admin/locked-meals/2026-02-02"

  /** The routes `root/segment`, one per segment. */
  function Below(root: string, segments: seq<string>): (r: seq<string>)
    ensures |r| == |segments|
    ensures forall k :: 0 <= k < |r| ==> r[k] == root + "/" + segments[k]
  {
    seq(|segments|, k requires 0 <= k < |segments| => root + "/" + segments[k])
  }

  /** The routes of the admin menu, in display order. */
  function AdminMenu(): (r: seq<string>)
    ensures |r| == 8 && r[0] == AdminRoot && r[4] == LockedMealsRoute
  {
    [AdminRoot]
    + Below(AdminRoot, ["users-management", "building-management", "meals-control"])
    + [LockedMealsRoute]
    + Below(AdminRoot, ["bill-generator", "user", "Profile"])
  }

  /** The routes of the user menu, in display order. */
  function UserMenu(): (r: seq<string>)
    ensures |r| == 4 && r[0] == UserRoot
  {
    [UserRoot] + Below(UserRoot, ["meals", "billing", "profile"])
  }

  /** `menuConfig[role]`, with the role defaulting to admin. */
  function MenuItems(role: Option<Role>): (r: seq<string>)
    ensures role.None? ==> r == AdminMenu()
    ensures r == if role == Some(User) then UserMenu() else AdminMenu()
  {
    match role.GetOr(Admin)
    case Admin => AdminMenu()
    case User => UserMenu()
  }

  predicate StartsWith(s: string, prefix: string) {
    |prefix| <= |s| && s[..|prefix|] == prefix
  }

  /** `isActive(href)`: the path is the route itself or lies below it. */
  predicate IsActive(pathname: string, href: string)
    ensures IsActive(pathname, href) ==> StartsWith(pathname, href)
  {
    pathname == href || StartsWith(pathname, href + "/")
  }

  /** Active means: the same path, or the route followed by a slash and anything. */
  lemma IsActiveIff(pathname: string, href: string)
    ensures IsActive(pathname, href) <==>
      pathname == href
      || (|href| < |pathname| && pathname[..|href|] == href && pathname[|href|] == '/')
  {
    if |href| < |pathname| && pathname[..|href|] == href && pathname[|href|] == '/' {
      assert pathname[..|href| + 1] == href + "/";
    }
    if StartsWith(pathname, href + "/") {
      assert pathname[..|href|] == (href + "/")[..|href|] == href;
    }
  }

  /** A path that merely extends the route without a slash does not activate it. */
  lemma NoSlashNoMatch()
    ensures !IsActive(AdminRoot + "x", AdminRoot)
  {
    IsActiveIff(AdminRoot + "x", AdminRoot);
    assert (AdminRoot + "x")[|AdminRoot|] == 'x';
  }

  /** Every route below a root activates the root item. */
  lemma ChildActivatesRoot(root: string, child: string)
    ensures IsActive(root + "/" + child, root)
  {
    assert (root + "/" + child)[..|root + "/"|] == root + "/";
  }

  /**
   * The admin root stays highlighted on every admin route except the locked
   * meals page, which lives outside it.
   */
  lemma AdminRootActive(i: int)
    requires 0 <= i < |AdminMenu()|
    ensures IsActive(AdminMenu()[i], AdminRoot) <==> i != 4
  {
    var m := AdminMenu();
    if i == 0 {
    } else if i == 4 {
      assert m[4][1] == 'm' != AdminRoot[1];
      IsActiveIff(m[4], AdminRoot);
    } else {
      var tail := m[i][|AdminRoot| + 1..];
      assert m[i] == AdminRoot + "/" + tail;
      ChildActivatesRoot(AdminRoot, tail);
    }
  }

  /** The user root stays highlighted on every user route: the other three lie below it. */
  lemma UserRootActive(i: int)
    requires 0 <= i < |UserMenu()|
    ensures IsActive(UserMenu()[i], UserRoot)
    ensures i > 0 ==> StartsWith(UserMenu()[i], UserRoot + "/")
  {
    var m := UserMenu();
    if i > 0 {
      var tail := m[i][|UserRoot| + 1..];
      assert m[i] == UserRoot + "/" + tail;
      ChildActivatesRoot(UserRoot, tail);
      assert m[i][..|UserRoot + "/"|] == UserRoot + "/";
    }
  }

  lemma AdminRoutesDistinct()
    ensures Distinct(AdminMenu())
  {
    var m := AdminMenu();
    assert |m[0]| == 16 && |m[1]| == 33 && |m[2]| == 36 && |m[3]| == 30;
    assert |m[4]| == 36 && |m[5]| == 31 && |m[6]| == 21 && |m[7]| == 24;
    assert m[2][1] == 'a' && m[4][1] == 'm';
  }

  lemma UserRoutesDistinct()
    ensures Distinct(UserMenu())
  {
    var m := UserMenu();
    assert |m[0]| == 15 && |m[1]| == 21 && |m[2]| == 23 && |m[3]| == 23;
    assert m[2][16] == 'b' && m[3][16] == 'p';
  }

  /** The routes are the React keys of the menu: within each menu they differ. */
  lemma MenusHaveDistinctRoutes(role: Option<Role>)
    ensures Distinct(MenuItems(role))
  {
    AdminRoutesDistinct();
    UserRoutesDistinct();
  }
}
