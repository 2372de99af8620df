// Who sees which notification: the navbar's unread badge
// (components/organisms/Navbar.tsx), its cart badge, and the notifications
// page's list and 'Mark all as read' button
// (features/notifications/NotificationsPage.tsx).
module NoticeBoard {
  import opened Types
  import opened Text
  import opened Lists
  import opened MockApi

  /**
   * A notification concerns a user when it names the user's id, or names
   * the user's role, or names neither (a broadcast). An empty user id
   * counts as none.
   */
  predicate Concerns(n: Notification, u: User)
  {
    (n.targetUserId.Some? && n.targetUserId.value == u.id)
    || (n.targetRole.Some? && n.targetRole.value == u.role)
    || (Falsy(n.targetUserId) && n.targetRole.None?)
  }

  function ConcernsUser(u: User): Notification -> bool
  {
    (n: Notification) => Concerns(n, u)
  }

  function UnreadFor(u: User): Notification -> bool
  {
    (n: Notification) => !n.read && Concerns(n, u)
  }

  function IsUnread(n: Notification): bool
  {
    !n.read
  }

  /** The navbar's count: unread notifications that concern the user; 0 with nobody logged in. */
  function UnreadCount(user: Option<User>, ns: seq<Notification>): nat
  {
    if user.None? then 0 else |Filter(ns, UnreadFor(user.value))|
  }

  /** The notifications page's list; empty with nobody logged in. */
  function PageList(user: Option<User>, ns: seq<Notification>): seq<Notification>
  {
    if user.None? then [] else Filter(ns, ConcernsUser(user.value))
  }

  /** 'Mark all as read' is offered exactly when the list has something in it. */
  predicate MarkAllOffered(user: Option<User>, ns: seq<Notification>)
  {
    |PageList(user, ns)| > 0
  }

  lemma {:induction false} FilterFilter<T>(s: seq<T>, p: T -> bool, q: T -> bool, both: T -> bool)
    requires forall i :: 0 <= i < |s| ==> (both(s[i]) <==> p(s[i]) && q(s[i]))
    ensures Filter(Filter(s, p), q) == Filter(s, both)
  {
    if s != [] {
      FilterFilter(s[1..], p, q, both);
      FilterAppend(if p(s[0]) then [s[0]] else [], Filter(s[1..], p), q);
      if p(s[0]) {
        assert Filter([s[0]], q) == (if q(s[0]) then [s[0]] else []) + Filter([s[0]][1..], q);
      }
    }
  }

  /**
   * The navbar counts the unread entries of the page's list: the page's
   * rule is the badge's rule without the read test. Without a user both
   * are empty.
   */
  lemma BadgeCountsPageList(user: Option<User>, ns: seq<Notification>)
    ensures UnreadCount(user, ns) == |Filter(PageList(user, ns), IsUnread)|
    ensures user.None? ==> UnreadCount(user, ns) == 0 && PageList(user, ns) == []
  {
    if user.Some? {
      FilterFilter(ns, ConcernsUser(user.value), IsUnread, UnreadFor(user.value));
    }
  }

  /**
   * After markAsRead for the user nothing concerning the user is unread,
   * provided no notification names both a user and a role.
   */
  lemma MarkAllClearsBadge(u: User, ns: seq<Notification>)
    requires forall i :: 0 <= i < |ns| ==> !(ns[i].targetUserId.Some? && ns[i].targetRole.Some?)
    ensures UnreadCount(Some(u), MarkRead(ns, u.id)) == 0
  {
    var marked := MarkRead(ns, u.id);
    MarkReadEffect(ns, u.id);
    forall i | 0 <= i < |marked| ensures !UnreadFor(u)(marked[i]) {
      assert marked[i].targetUserId == ns[i].targetUserId && marked[i].targetRole == ns[i].targetRole;
    }
    FilterNone(marked, UnreadFor(u));
  }

  /**
   * Without that proviso the badge can survive: a notice for another user's
   * id and this user's role concerns this user but is not marked.
   */
  lemma CrossTargetedNoticeStaysUnread(u: User, other: string)
    requires other != u.id && other != ""
    ensures var n := Notification("n-1", System, "", "", "", false, Some(other), Some(u.role));
      UnreadCount(Some(u), MarkRead([n], u.id)) == 1
  {
    var n := Notification("n-1", System, "", "", "", false, Some(other), Some(u.role));
    var marked := MarkRead([n], u.id);
    assert marked == [n];
    assert Filter(marked, UnreadFor(u)) == [n] + Filter(marked[1..], UnreadFor(u));
  }

  /** The bell's badge: absent at 0, the count up to 9, then '9+'. */
  function BellBadge(count: nat): Option<string>
  {
    if count > 0 then Some(if count > 9 then "9+" else NatToString(count)) else None
  }

  /** The cart's badge: the count when it is positive. */
  function CartBadge(cartCount: int): Option<string>
  {
    if cartCount > 0 then Some(NatToString(cartCount)) else None
  }

  lemma BadgesShown(count: nat, cartCount: int)
    ensures BellBadge(count).Some? <==> count > 0
    ensures count > 9 ==> BellBadge(count) == Some("9+")
    ensures 0 < count <= 9 ==> BellBadge(count) == Some(NatToString(count)) && |NatToString(count)| == 1
    ensures CartBadge(cartCount).Some? <==> cartCount > 0
  {
  }
}
