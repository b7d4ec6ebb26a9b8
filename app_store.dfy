/** The application store: sidebar and mobile-menu flags, the theme choice
    and the list of notifications. Notification ids and timestamps come from
    `Math.random` and `Date.now`, so they are inputs; the auto-dismiss timer
    is returned as the delay after which the caller removes the entry. */
module AppStore {
  import opened JsValues

  datatype Theme = Light | Dark | System

  datatype NotificationKind = Info | Success | Warning | Error

  /** What a caller passes to `addNotification`: everything but id and timestamp. */
  datatype NotificationDraft = NotificationDraft(
    kind: NotificationKind,
    title: string,
    message: Option<string>,
    duration: Option<int>)

  datatype Notification = Notification(
    id: string,
    kind: NotificationKind,
    title: string,
    message: Option<string>,
    timestamp: int,
    duration: Option<int>)

  datatype AppState = AppState(
    isSidebarOpen: bool,
    isMobileMenuOpen: bool,
    theme: Theme,
    notifications: seq<Notification>)

  const InitialState: AppState := AppState(true, false, System, [])

  const DefaultDuration: int := 5000

  /** `{ ...draft, id, timestamp }`. */
  function Stamp(draft: NotificationDraft, id: string, timestamp: int): Notification {
    Notification(id, draft.kind, draft.title, draft.message, timestamp, draft.duration)
  }

  /** The delay after which the entry is dismissed: the draft's duration,
      5000 when it has none, and no timer at all unless it is positive. */
  function AutoDismissDelay(duration: Option<int>): (r: Option<int>)
    ensures r.Some? ==> r.value > 0
    ensures duration.None? ==> r == Some(DefaultDuration)
    ensures duration.Some? ==> (r.Some? <==> duration.value > 0) && (r.Some? ==> r.value == duration.value)
  {
    var d := duration.GetOr(DefaultDuration);
    if d > 0 then Some(d) else None
  }

  /** `notifications.filter((n) => n.id !== id)`. */
  function RemoveById(notifications: seq<Notification>, id: string): (r: seq<Notification>)
    ensures forall n :: n in r ==> n in notifications && n.id != id
    ensures forall n :: n in notifications && n.id != id ==> n in r
    ensures |r| <= |notifications|
  {
    if notifications == [] then []
    else (if notifications[0].id == id then [] else [notifications[0]]) + RemoveById(notifications[1..], id)
  }

  /** Removing by id distributes over concatenation, so the surviving
      entries keep their relative order. */
  lemma {:induction false} RemoveByIdConcat(a: seq<Notification>, b: seq<Notification>, id: string)
    ensures RemoveById(a + b, id) == RemoveById(a, id) + RemoveById(b, id)
  {
    if a != [] {
      assert (a + b)[1..] == a[1..] + b;
      RemoveByIdConcat(a[1..], b, id);
    } else {
      assert a + b == b;
    }
  }

  /** An id no entry carries leaves the list unchanged. */
  lemma {:induction false} RemoveAbsentId(notifications: seq<Notification>, id: string)
    requires forall n :: n in notifications ==> n.id != id
    ensures RemoveById(notifications, id) == notifications
  {
    if notifications != [] {
      RemoveAbsentId(notifications[1..], id);
    }
  }

  /** Removing the same id twice is removing it once. */
  lemma RemoveByIdIdempotent(notifications: seq<Notification>, id: string)
    ensures RemoveById(RemoveById(notifications, id), id) == RemoveById(notifications, id)
  {
    RemoveAbsentId(RemoveById(notifications, id), id);
  }

  /** Adding an entry under a fresh id and then removing that id gives the
      list back. */
  lemma AddThenRemove(notifications: seq<Notification>, draft: NotificationDraft, id: string, timestamp: int)
    requires forall n :: n in notifications ==> n.id != id
    ensures RemoveById(notifications + [Stamp(draft, id, timestamp)], id) == notifications
  {
    RemoveByIdConcat(notifications, [Stamp(draft, id, timestamp)], id);
    RemoveAbsentId(notifications, id);
    assert RemoveById([Stamp(draft, id, timestamp)], id) == [];
  }

  class Store {
    var isSidebarOpen: bool
    var isMobileMenuOpen: bool
    var theme: Theme
    var notifications: seq<Notification>

    function State(): AppState
      reads this
    {
      AppState(isSidebarOpen, isMobileMenuOpen, theme, notifications)
    }

    constructor ()
      ensures State() == InitialState
    {
      isSidebarOpen, isMobileMenuOpen, theme, notifications := true, false, System, [];
    }

    method ToggleSidebar()
      modifies this
      ensures State() == old(State()).(isSidebarOpen := !old(isSidebarOpen))
    {
      isSidebarOpen := !isSidebarOpen;
    }

    method SetSidebarOpen(open: bool)
      modifies this
      ensures State() == old(State()).(isSidebarOpen := open)
    {
      isSidebarOpen := open;
    }

    method ToggleMobileMenu()
      modifies this
      ensures State() == old(State()).(isMobileMenuOpen := !old(isMobileMenuOpen))
    {
      isMobileMenuOpen := !isMobileMenuOpen;
    }

    method SetMobileMenuOpen(open: bool)
      modifies this
      ensures State() == old(State()).(isMobileMenuOpen := open)
    {
      isMobileMenuOpen := open;
    }

    /** `setTheme`: the store field only; the document class list is not modelled. */
    method SetTheme(t: Theme)
      modifies this
      ensures State() == old(State()).(theme := t)
    {
      theme := t;
    }

    /** `addNotification`: appends one stamped entry and returns its id and
        the auto-dismiss delay, if a timer is scheduled. */
    method AddNotification(draft: NotificationDraft, id: string, timestamp: int)
      returns (newId: string, dismissAfter: Option<int>)
      modifies this
      ensures State() == old(State()).(notifications := old(notifications) + [Stamp(draft, id, timestamp)])
      ensures newId == id
      ensures dismissAfter == AutoDismissDelay(draft.duration)
    {
      notifications := notifications + [Stamp(draft, id, timestamp)];
      newId := id;
      var duration := draft.duration.GetOr(DefaultDuration);
      dismissAfter := if duration > 0 then Some(duration) else None;
    }

    method RemoveNotification(id: string)
      modifies this
      ensures State() == old(State()).(notifications := RemoveById(old(notifications), id))
    {
      notifications := RemoveById(notifications, id);
    }

    method ClearNotifications()
      modifies this
      ensures State() == old(State()).(notifications := [])
    {
      notifications := [];
    }
  }

  /** Toggling the sidebar twice restores the store. */
  method ToggleSidebarTwice(store: Store)
    modifies store
    ensures store.State() == old(store.State())
  {
    store.ToggleSidebar();
    store.ToggleSidebar();
  }

  /** Toggling the mobile menu twice restores the store. */
  method ToggleMobileMenuTwice(store: Store)
    modifies store
    ensures store.State() == old(store.State())
  {
    store.ToggleMobileMenu();
    store.ToggleMobileMenu();
  }

  /** Adding a notification under a fresh id and letting its timer fire
      restores the list. */
  method AddThenDismiss(store: Store, draft: NotificationDraft, id: string, timestamp: int)
    requires forall n :: n in store.notifications ==> n.id != id
    modifies store
    ensures store.State() == old(store.State())
  {
    var newId, _ := store.AddNotification(draft, id, timestamp);
    store.RemoveNotification(newId);
    AddThenRemove(old(store.notifications), draft, id, timestamp);
  }
}
