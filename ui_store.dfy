/**
 * The UI store of frontend/src/stores/uiStore.js: sidebar and modal flags,
 * the notification list and the colour theme. `Date.now()` is the `now`
 * argument of `AddNotification`.
 */
module UiStore {
  import opened Wrappers

  /** A notification in the list. */
  datatype Notification = Notification(id: int, kind: string, duration: int, message: string)

  /** What a caller passes to `addNotification`; absent fields take the defaults. */
  datatype NotificationInput = NotificationInput(id: Option<int>, kind: Option<string>, duration: Option<int>, message: string)

  const DefaultKind := "info"
  const DefaultDuration := 5000

  /** `{id, type: 'info', duration: 5000, ...notification}`: the caller's fields win over the defaults. */
  function NewNotification(input: NotificationInput, now: int): (n: Notification)
    ensures n.id == (if input.id.Some? then input.id.value else now)
    ensures n.kind == (if input.kind.Some? then input.kind.value else DefaultKind)
    ensures n.duration == (if input.duration.Some? then input.duration.value else DefaultDuration)
    ensures n.message == input.message
  {
    Notification(input.id.GetOr(now), input.kind.GetOr(DefaultKind), input.duration.GetOr(DefaultDuration), input.message)
  }

  /** The auto-removal `setTimeout`: after `delay` ms it filters out the entries whose id is `removesId`. */
  datatype RemovalTimer = RemovalTimer(delay: int, removesId: int)

  /**
   * The timer `addNotification` schedules: none when the caller's duration is
   * exactly 0, otherwise one for the local `id = Date.now()` (not the caller's
   * id) after `notification.duration || 5000` ms.
   */
  function AutoRemoval(input: NotificationInput, now: int): (t: Option<RemovalTimer>)
    ensures t.None? <==> input.duration == Some(0)
    ensures t.Some? ==> t.value.removesId == now
    ensures t.Some? ==> t.value.delay == NewNotification(input, now).duration && t.value.delay != 0
  {
    match input.duration
    case Some(d) => if d == 0 then None else Some(RemovalTimer(d, now))
    case None => Some(RemovalTimer(DefaultDuration, now))
  }

  /** `notifications.filter((n) => n.id !== id)`. */
  function WithoutId(ns: seq<Notification>, id: int): (r: seq<Notification>)
    ensures |r| <= |ns|
    ensures forall i :: 0 <= i < |r| ==> r[i].id != id
  {
    if ns == [] then []
    else
      var n := |ns| - 1;
      WithoutId(ns[..n], id) + (if ns[n].id != id then [ns[n]] else [])
  }

  /** The kept entries stay in their order: removing from a longer list extends the result for its prefix. */
  lemma {:induction false} WithoutIdKeepsOrder(ns: seq<Notification>, extra: seq<Notification>, id: int)
    ensures WithoutId(ns + extra, id) == WithoutId(ns, id) + WithoutId(extra, id)
    decreases |extra|
  {
    if extra == [] {
      assert ns + extra == ns;
    } else {
      var n := |extra| - 1;
      var all := ns + extra;
      WithoutIdKeepsOrder(ns, extra[..n], id);
      assert all[..|all| - 1] == ns + extra[..n];
      assert all[|all| - 1] == extra[n];
      var tail := if extra[n].id != id then [extra[n]] else [];
      assert WithoutId(all, id) == WithoutId(ns + extra[..n], id) + tail;
      assert WithoutId(extra, id) == WithoutId(extra[..n], id) + tail;
    }
  }

  /** Exactly the entries with another id are kept. */
  lemma {:induction false} WithoutIdMembers(ns: seq<Notification>, id: int, x: Notification)
    ensures x in WithoutId(ns, id) <==> x in ns && x.id != id
  {
    if ns != [] {
      var n := |ns| - 1;
      WithoutIdMembers(ns[..n], id, x);
      assert ns == ns[..n] + [ns[n]];
    }
  }

  /** Removing an id that no entry has changes nothing; removing twice is removing once. */
  lemma {:induction false} WithoutIdAbsent(ns: seq<Notification>, id: int)
    requires forall i :: 0 <= i < |ns| ==> ns[i].id != id
    ensures WithoutId(ns, id) == ns
  {
    if ns != [] {
      var n := |ns| - 1;
      WithoutIdAbsent(ns[..n], id);
      assert ns == ns[..n] + [ns[n]];
    }
  }

  lemma WithoutIdIdempotent(ns: seq<Notification>, id: int)
    ensures WithoutId(WithoutId(ns, id), id) == WithoutId(ns, id)
  {
    WithoutIdAbsent(WithoutId(ns, id), id);
  }

  /** `toggleTheme`: 'light' becomes 'dark', anything else 'light'. */
  function NextTheme(theme: string): (t: string)
    ensures theme == "light" <==> t == "dark"
    ensures t == "light" || t == "dark"
  {
    if theme == "light" then "dark" else "light"
  }

  /** Two toggles come back to a light or dark theme; from any other theme they end at dark. */
  lemma ThemeToggleTwice(theme: string)
    ensures theme == "light" || theme == "dark" ==> NextTheme(NextTheme(theme)) == theme
    ensures theme != "light" && theme != "dark" ==> NextTheme(NextTheme(theme)) == "dark"
  {
  }

  class Store {
    var sidebarOpen: bool
    var modalOpen: bool
    var modalContent: Option<string>
    var notifications: seq<Notification>
    var theme: string

    /** The initial state. */
    constructor ()
      ensures sidebarOpen && !modalOpen && modalContent == None
      ensures notifications == [] && theme == "light"
    {
      sidebarOpen := true;
      modalOpen := false;
      modalContent := None;
      notifications := [];
      theme := "light";
    }

    method ToggleSidebar()
      modifies this
      ensures sidebarOpen == !old(sidebarOpen)
      ensures modalOpen == old(modalOpen) && modalContent == old(modalContent)
      ensures notifications == old(notifications) && theme == old(theme)
    {
      sidebarOpen := !sidebarOpen;
    }

    method SetSidebarOpen(open: bool)
      modifies this
      ensures sidebarOpen == open
      ensures modalOpen == old(modalOpen) && modalContent == old(modalContent)
      ensures notifications == old(notifications) && theme == old(theme)
    {
      sidebarOpen := open;
    }

    method OpenModal(content: string)
      modifies this
      ensures modalOpen && modalContent == Some(content)
      ensures sidebarOpen == old(sidebarOpen) && notifications == old(notifications) && theme == old(theme)
    {
      modalOpen, modalContent := true, Some(content);
    }

    method CloseModal()
      modifies this
      ensures !modalOpen && modalContent == None
      ensures sidebarOpen == old(sidebarOpen) && notifications == old(notifications) && theme == old(theme)
    {
      modalOpen, modalContent := false, None;
    }

    /** Appends exactly one entry at the end; earlier entries are unchanged. */
    method AddNotification(input: NotificationInput, now: int)
      modifies this
      ensures notifications == old(notifications) + [NewNotification(input, now)]
      ensures sidebarOpen == old(sidebarOpen) && modalOpen == old(modalOpen)
      ensures modalContent == old(modalContent) && theme == old(theme)
    {
      notifications := notifications + [NewNotification(input, now)];
    }

    /** Removes every entry with that id and keeps the rest in order (also what the auto-removal timer does). */
    method RemoveNotification(id: int)
      modifies this
      ensures notifications == WithoutId(old(notifications), id)
      ensures sidebarOpen == old(sidebarOpen) && modalOpen == old(modalOpen)
      ensures modalContent == old(modalContent) && theme == old(theme)
    {
      notifications := WithoutId(notifications, id);
    }

    method ClearNotifications()
      modifies this
      ensures notifications == []
      ensures sidebarOpen == old(sidebarOpen) && modalOpen == old(modalOpen)
      ensures modalContent == old(modalContent) && theme == old(theme)
    {
      notifications := [];
    }

    method SetTheme(t: string)
      modifies this
      ensures theme == t
      ensures sidebarOpen == old(sidebarOpen) && modalOpen == old(modalOpen)
      ensures modalContent == old(modalContent) && notifications == old(notifications)
    {
      theme := t;
    }

    method ToggleTheme()
      modifies this
      ensures theme == NextTheme(old(theme))
      ensures sidebarOpen == old(sidebarOpen) && modalOpen == old(modalOpen)
      ensures modalContent == old(modalContent) && notifications == old(notifications)
    {
      theme := NextTheme(theme);
    }
  }

  /** Toggling the sidebar twice restores it. */
  method ToggleSidebarTwice(s: Store)
    modifies s
    ensures s.sidebarOpen == old(s.sidebarOpen)
  {
    s.ToggleSidebar();
    s.ToggleSidebar();
  }

  /** Without a caller id, the timer removes the notification it was scheduled for. */
  lemma TimerRemovesOwnNotification(ns: seq<Notification>, input: NotificationInput, now: int)
    requires input.id.None? && AutoRemoval(input, now).Some?
    ensures NewNotification(input, now) !in WithoutId(ns + [NewNotification(input, now)], AutoRemoval(input, now).value.removesId)
  {
    WithoutIdMembers(ns + [NewNotification(input, now)], now, NewNotification(input, now));
  }

  /** With a caller id other than the timestamp, the timer leaves the notification in place. */
  lemma TimerMissesCallerId(ns: seq<Notification>, input: NotificationInput, now: int)
    requires input.id.Some? && input.id.value != now && AutoRemoval(input, now).Some?
    ensures NewNotification(input, now) in WithoutId(ns + [NewNotification(input, now)], AutoRemoval(input, now).value.removesId)
  {
    WithoutIdMembers(ns + [NewNotification(input, now)], now, NewNotification(input, now));
  }

  /** A notification added with a fresh id and then removed by that id leaves the list as it was. */
  method AddThenRemove(s: Store, input: NotificationInput, now: int)
    requires forall i :: 0 <= i < |s.notifications| ==> s.notifications[i].id != NewNotification(input, now).id
    modifies s
    ensures s.notifications == old(s.notifications)
  {
    var before := s.notifications;
    s.AddNotification(input, now);
    var id := NewNotification(input, now).id;
    s.RemoveNotification(id);
    WithoutIdKeepsOrder(before, [NewNotification(input, now)], id);
    WithoutIdAbsent(before, id);
    assert WithoutId([NewNotification(input, now)], id) == [] by {
      assert [NewNotification(input, now)] == [] + [NewNotification(input, now)];
    }
  }
}
