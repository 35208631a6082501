/**
 * Frontend/src/components/ui/DashboardNavbar.jsx: the three menu flags and
 * their toggles, and the unread-notification count behind the badge.
 */
module DashboardNavbar {
  import Seqs

  datatype Notification = Notification(id: int, text: string, time: string, isRead: bool)

  const MockNotifications: seq<Notification> := [
    Notification(1, "New task assigned to you", "5 min ago", false),
    Notification(2, "Project deadline approaching", "1 hour ago", false),
    Notification(3, "Weekly report available", "1 day ago", true)
  ]

  /** `notifications.filter(n => !n.isRead).length`, counted one notification at a time. */
  function UnreadCount(ns: seq<Notification>): (r: nat)
    ensures r <= |ns|
    ensures r == |Seqs.Filter(ns, (n: Notification) => !n.isRead)|
  {
    if ns == [] then 0 else (if ns[0].isRead then 0 else 1) + UnreadCount(ns[1..])
  }

  /** The badge is shown exactly when some notification is unread. */
  lemma {:induction false} BadgeIffSomeUnread(ns: seq<Notification>)
    ensures UnreadCount(ns) > 0 <==> exists i :: 0 <= i < |ns| && !ns[i].isRead
  {
    if ns != [] {
      BadgeIffSomeUnread(ns[1..]);
      if exists i :: 0 <= i < |ns[1..]| && !ns[1..][i].isRead {
        var i :| 0 <= i < |ns[1..]| && !ns[1..][i].isRead;
        assert !ns[i + 1].isRead;
      }
      if exists i :: 0 <= i < |ns| && !ns[i].isRead {
        var i :| 0 <= i < |ns| && !ns[i].isRead;
        if i > 0 {
          assert !ns[1..][i - 1].isRead;
        }
      }
    }
  }

  /** The count equals the number of distinct unread ids when ids are unique. */
  lemma {:induction false} UnreadCountIsUnreadIds(ns: seq<Notification>)
    requires forall i, j :: 0 <= i < j < |ns| ==> ns[i].id != ns[j].id
    ensures UnreadCount(ns) == |set i | 0 <= i < |ns| && !ns[i].isRead :: ns[i].id|
  {
    if ns != [] {
      var rest := ns[1..];
      UnreadCountIsUnreadIds(rest);
      var tail := set i | 0 <= i < |rest| && !rest[i].isRead :: rest[i].id;
      var all := set i | 0 <= i < |ns| && !ns[i].isRead :: ns[i].id;
      assert ns[0].id !in tail by {
        forall i | 0 <= i < |rest| ensures rest[i].id != ns[0].id {
          assert rest[i] == ns[i + 1];
        }
      }
      if ns[0].isRead {
        assert all == tail by {
          forall x | x in all ensures x in tail {
            var i :| 0 <= i < |ns| && !ns[i].isRead && ns[i].id == x;
            assert i > 0 && rest[i - 1] == ns[i];
          }
          forall x | x in tail ensures x in all {
            var i :| 0 <= i < |rest| && !rest[i].isRead && rest[i].id == x;
            assert rest[i] == ns[i + 1];
          }
        }
      } else {
        assert all == {ns[0].id} + tail by {
          forall x | x in all ensures x in {ns[0].id} + tail {
            var i :| 0 <= i < |ns| && !ns[i].isRead && ns[i].id == x;
            if i > 0 {
              assert rest[i - 1] == ns[i];
            }
          }
          forall x | x in tail ensures x in all {
            var i :| 0 <= i < |rest| && !rest[i].isRead && rest[i].id == x;
            assert rest[i] == ns[i + 1];
          }
        }
      }
    }
  }

  /** Two of the three mock notifications are unread. */
  lemma MockUnreadCount()
    ensures UnreadCount(MockNotifications) == 2
  {
    var ns := MockNotifications;
    assert ns[1..][1..][1..] == [];
  }

  class Navbar {
    var isMobileMenuOpen: bool
    var isProfileDropdownOpen: bool
    var isNotificationsOpen: bool
    const notifications: seq<Notification>

    /** The profile and notifications dropdowns are never open together. */
    predicate Valid()
      reads this
    {
      !(isProfileDropdownOpen && isNotificationsOpen)
    }

    constructor()
      ensures Valid() && !isMobileMenuOpen && !isProfileDropdownOpen && !isNotificationsOpen
      ensures notifications == MockNotifications
    {
      isMobileMenuOpen := false;
      isProfileDropdownOpen := false;
      isNotificationsOpen := false;
      notifications := MockNotifications;
    }

    /** The mobile menu flips and both dropdowns close. */
    method HandleToggleMenu()
      modifies this
      ensures Valid()
      ensures isMobileMenuOpen == !old(isMobileMenuOpen) && !isProfileDropdownOpen && !isNotificationsOpen
    {
      isMobileMenuOpen := !isMobileMenuOpen;
      isProfileDropdownOpen := false;
      isNotificationsOpen := false;
    }

    /** The profile dropdown flips and notifications close; the mobile menu is left alone. */
    method HandleToggleProfileDropdown()
      modifies this
      ensures Valid()
      ensures isProfileDropdownOpen == !old(isProfileDropdownOpen) && !isNotificationsOpen
      ensures isMobileMenuOpen == old(isMobileMenuOpen)
    {
      isProfileDropdownOpen := !isProfileDropdownOpen;
      isNotificationsOpen := false;
    }

    /** Notifications flip and the profile dropdown closes; the mobile menu is left alone. */
    method HandleToggleNotifications()
      modifies this
      ensures Valid()
      ensures isNotificationsOpen == !old(isNotificationsOpen) && !isProfileDropdownOpen
      ensures isMobileMenuOpen == old(isMobileMenuOpen)
    {
      isNotificationsOpen := !isNotificationsOpen;
      isProfileDropdownOpen := false;
    }

    /** A link inside the mobile menu closes it. */
    method CloseMobileMenu()
      modifies this
      ensures !isMobileMenuOpen
      ensures isProfileDropdownOpen == old(isProfileDropdownOpen) && isNotificationsOpen == old(isNotificationsOpen)
    {
      isMobileMenuOpen := false;
    }
  }
}
