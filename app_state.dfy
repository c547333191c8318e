/** The application-wide UI state and the reducer that updates it. */
module AppState {
  import Lists

  /** A notification as dispatched: its id and the rest of its content. */
  datatype Notification = Notification(id: int, message: string)

  datatype State = State(
    sidebarOpen: bool,
    currentPage: string,
    notifications: seq<Notification>,
    theme: string)

  /** The action types the reducer knows, and every other type name. */
  datatype Action =
    | ToggleSidebar
    | SetSidebar(open: bool)
    | SetCurrentPage(page: string)
    | AddNotification(notification: Notification)
    | RemoveNotification(id: int)
    | SetTheme(theme: string)
    | Other(name: string)

  function InitialState(): (s: State)
    ensures s.sidebarOpen && s.currentPage == "Dashboard"
    ensures s.notifications == [] && s.theme == "light"
  {
    State(true, "Dashboard", [], "light")
  }

  /** The notifications left after removing id `id`. */
  function WithoutId(ns: seq<Notification>, id: int): (r: seq<Notification>)
    ensures |r| <= |ns|
    ensures forall i :: 0 <= i < |r| ==> r[i].id != id && r[i] in ns
    ensures forall i :: 0 <= i < |ns| && ns[i].id != id ==> ns[i] in r
  {
    Lists.Filter(ns, (n: Notification) => n.id != id)
  }

  /** The reducer. Each field of the new state is the old one unless the
      action is the one that sets it. */
  function Reduce(s: State, a: Action): (r: State)
    ensures r.sidebarOpen == match a
      case ToggleSidebar => !s.sidebarOpen
      case SetSidebar(open) => open
      case _ => s.sidebarOpen
    ensures r.currentPage == (if a.SetCurrentPage? then a.page else s.currentPage)
    ensures r.theme == (if a.SetTheme? then a.theme else s.theme)
    ensures a.AddNotification? ==> r.notifications == s.notifications + [a.notification]
    ensures a.RemoveNotification? ==> r.notifications == WithoutId(s.notifications, a.id)
    ensures !a.AddNotification? && !a.RemoveNotification? ==> r.notifications == s.notifications
    ensures a.Other? ==> r == s
  {
    match a
    case ToggleSidebar => s.(sidebarOpen := !s.sidebarOpen)
    case SetSidebar(open) => s.(sidebarOpen := open)
    case SetCurrentPage(page) => s.(currentPage := page)
    case AddNotification(n) => s.(notifications := s.notifications + [n])
    case RemoveNotification(id) => s.(notifications := WithoutId(s.notifications, id))
    case SetTheme(theme) => s.(theme := theme)
    case Other(_) => s
  }

  /** Toggling the sidebar twice restores the state. */
  lemma ToggleTwice(s: State)
    ensures Reduce(Reduce(s, ToggleSidebar), ToggleSidebar) == s
  {
  }

  /** Setting the sidebar, the page or the theme a second time to the same
      value changes nothing. */
  lemma SettersIdempotent(s: State, open: bool, page: string, theme: string)
    ensures Reduce(Reduce(s, SetSidebar(open)), SetSidebar(open)) == Reduce(s, SetSidebar(open))
    ensures Reduce(Reduce(s, SetCurrentPage(page)), SetCurrentPage(page)) == Reduce(s, SetCurrentPage(page))
    ensures Reduce(Reduce(s, SetTheme(theme)), SetTheme(theme)) == Reduce(s, SetTheme(theme))
  {
  }

  /** Removing an id twice is removing it once. */
  lemma RemoveIdempotent(s: State, id: int)
    ensures Reduce(Reduce(s, RemoveNotification(id)), RemoveNotification(id))
         == Reduce(s, RemoveNotification(id))
  {
    Lists.FilterIdempotent(s.notifications, (n: Notification) => n.id != id);
  }

  /** Removing an id nobody carries leaves the state as it was. */
  lemma RemoveAbsent(s: State, id: int)
    requires forall i :: 0 <= i < |s.notifications| ==> s.notifications[i].id != id
    ensures Reduce(s, RemoveNotification(id)) == s
  {
    Lists.FilterKeepsAll(s.notifications, (n: Notification) => n.id != id);
  }

  /** Adding a notification with a fresh id and then removing that id
      restores the state. */
  lemma AddThenRemove(s: State, n: Notification)
    requires forall i :: 0 <= i < |s.notifications| ==> s.notifications[i].id != n.id
    ensures Reduce(Reduce(s, AddNotification(n)), RemoveNotification(n.id)) == s
  {
    var keep := (m: Notification) => m.id != n.id;
    Lists.FilterAppend(s.notifications, [n], keep);
    Lists.FilterKeepsAll(s.notifications, keep);
    assert Lists.Filter([n], keep) == [];
  }

  /** Removing one id keeps the other notifications in their order: it
      commutes with appending a notification that carries another id. */
  lemma RemoveKeepsOrder(s: State, n: Notification, id: int)
    requires n.id != id
    ensures Reduce(Reduce(s, AddNotification(n)), RemoveNotification(id))
         == Reduce(Reduce(s, RemoveNotification(id)), AddNotification(n))
  {
    var keep := (m: Notification) => m.id != id;
    Lists.FilterAppend(s.notifications, [n], keep);
    assert Lists.Filter([n], keep) == [n];
  }
}
