/** The sidebar: which menu entries each role sees, and which entry is
    highlighted for the current path. */
module Navigation {
  import opened Common

  /** A menu entry (its icon is presentation only). */
  datatype NavItem = NavItem(name: string, href: string)

  const Dashboard := NavItem("Dashboard", "/dashboard")
  const Patients := NavItem("Patients", "/patients")
  const Doctors := NavItem("Doctors", "/doctors")
  const Appointments := NavItem("Appointments", "/appointments")
  const MedicalRecords := NavItem("Medical Records", "/medical-records")
  const Medicines := NavItem("Medicines", "/medicines")
  const Users := NavItem("Users", "/users/new")
  const Dispensary := NavItem("Dispensary", "/dispensary")
  const Profile := NavItem("Profile", "/profile")

  /** `user?.role || 'receptionist'`: no user, or a user without a role,
      is treated as a receptionist. */
  function EffectiveRole(role: Option<string>): (r: string)
    ensures role.None? || role == Some("") ==> r == "receptionist"
    ensures role.Some? && role.value != "" ==> r == role.value
  {
    match role
    case None => "receptionist"
    case Some(name) => if name == "" then "receptionist" else name
  }

  /** The entry named `name` is on the menu `menu`. */
  predicate OnMenu(menu: seq<NavItem>, name: string) {
    exists i :: 0 <= i < |menu| && menu[i].name == name
  }

  /** The menu for a role: Dashboard first, Profile last, the Dispensary
      only for administrators and chemists, and only those two entries for
      a role the sidebar does not know. */
  function Menu(role: string): (r: seq<NavItem>)
    ensures |r| >= 2 && r[0] == Dashboard && r[|r| - 1] == Profile
    ensures role == "admin" ==> |r| == 9
    ensures role == "admin" ==>
      r == [Dashboard, Patients, Doctors, Appointments, MedicalRecords, Medicines, Users, Dispensary, Profile]
    ensures OnMenu(r, "Dispensary") <==> role == "admin" || role == "chemist"
    ensures role !in {"admin", "receptionist", "doctor", "chemist"} ==> r == [Dashboard, Profile]
  {
    var base := [Dashboard];
    if role == "admin" then
      var r := base + [Patients, Doctors, Appointments, MedicalRecords, Medicines, Users, Dispensary, Profile];
      assert r[7] == Dispensary;
      r
    else if role == "receptionist" then
      base + [Patients, Appointments, Profile]
    else if role == "doctor" then
      base + [Appointments, MedicalRecords, Profile]
    else if role == "chemist" then
      var r := base + [Medicines, Dispensary, Profile];
      assert r[2] == Dispensary;
      r
    else
      base + [Profile]
  }

  /** The entry with link `href` is highlighted on `path`: on an exact
      match, and for every entry but the dashboard also on any path the link
      is a prefix of. */
  predicate IsActive(path: string, href: string)
    ensures path == href ==> IsActive(path, href)
    ensures IsActive(path, href) ==> href <= path
  {
    path == href || (href != "/dashboard" && href <= path)
  }

  /** The dashboard entry is highlighted only on the dashboard itself; any
      other entry is highlighted exactly on the paths that start with its
      link. */
  lemma ActiveRule(path: string, href: string)
    ensures href == "/dashboard" ==> (IsActive(path, href) <==> path == href)
    ensures href != "/dashboard" ==> (IsActive(path, href) <==> href <= path)
  {
  }

  /** Two prefixes of one path are prefixes of each other. */
  lemma {:induction false} PrefixesComparable(a: string, b: string, path: string)
    requires a <= path && b <= path
    ensures a <= b || b <= a
  {
    if |a| <= |b| {
      assert a == path[..|a|] == b[..|a|];
    } else {
      assert b == path[..|b|] == a[..|b|];
    }
  }

  /** No link of a menu is a prefix of another one. */
  predicate PrefixFree(menu: seq<NavItem>) {
    forall i, j :: 0 <= i < |menu| && 0 <= j < |menu| && i != j ==> !(menu[i].href <= menu[j].href)
  }

  const Links := ["/dashboard", "/patients", "/doctors", "/appointments", "/medical-records",
                  "/medicines", "/users/new", "/dispensary", "/profile"]

  /** No link of the sidebar extends another one. */
  lemma LinksPrefixFree(a: string, b: string)
    requires a in Links && b in Links && a <= b
    ensures a == b
  {
    // every link is at least eight characters long, and the first seven
    // characters already tell the links apart
    assert a[1] == b[1] && a[2] == b[2] && a[3] == b[3];
    assert a[4] == b[4] && a[5] == b[5] && a[6] == b[6];
  }

  lemma MenusArePrefixFree(role: string)
    ensures PrefixFree(Menu(role))
  {
    var m := Menu(role);
    forall i, j | 0 <= i < |m| && 0 <= j < |m| && i != j
      ensures !(m[i].href <= m[j].href)
    {
      assert m[i].href in Links && m[j].href in Links && m[i].href != m[j].href;
      if m[i].href <= m[j].href {
        LinksPrefixFree(m[i].href, m[j].href);
      }
    }
  }

  /** For every role and path, at most one menu entry is highlighted. */
  lemma AtMostOneActive(role: string, path: string, i: int, j: int)
    requires 0 <= i < |Menu(role)| && 0 <= j < |Menu(role)|
    requires IsActive(path, Menu(role)[i].href) && IsActive(path, Menu(role)[j].href)
    ensures i == j
  {
    var m := Menu(role);
    MenusArePrefixFree(role);
    if i != j {
      var a, b := m[i].href, m[j].href;
      assert a <= path && b <= path;
      PrefixesComparable(a, b, path);
      assert false;
    }
  }
}
