/**
 * The notification centre: the bill-reminder pass that turns unpaid bills
 * into reminder and overdue notices, the list operations (mark read, delete,
 * mark all read), the unread count and the relative-time buckets of
 * `formatDate`.
 */
module Notifications {
  import opened Wrappers
  import Text
  import Bills

  datatype Kind = Success | Error | Warning | Info | Reminder

  datatype Notification = Notification(
    id: string,
    kind: Kind,
    title: string,
    createdAt: string,
    read: bool,
    userId: string)

  function ReminderId(billId: string): string { "bill_reminder_" + billId }
  function OverdueId(billId: string): string { "bill_overdue_" + billId }

  /** `existingNotifications.some((n) => n.id === id)` */
  predicate HasId(ns: seq<Notification>, id: string) {
    exists n :: n in ns && n.id == id
  }

  /** The notice for a bill due within the week. */
  function ReminderFor(b: Bills.Bill, userId: string, now: string): Notification {
    Notification(ReminderId(b.id), Reminder, "Bill Reminder: " + b.billType, now, false, userId)
  }

  /** The notice for an overdue bill. */
  function OverdueFor(b: Bills.Bill, userId: string, now: string): Notification {
    Notification(OverdueId(b.id), Warning, "Overdue Bill: " + b.billType, now, false, userId)
  }

  /** The body of the `forEach` for one bill: two independent checks, each prepending a notice it has not yet got. */
  function BillStep(ns: seq<Notification>, b: Bills.Bill, today: int, userId: string, now: string): seq<Notification> {
    if b.paid then ns
    else
      var days := Bills.DaysUntilDue(b, today);
      var withReminder :=
        if 0 <= days <= 7 && !HasId(ns, ReminderId(b.id)) then [ReminderFor(b, userId, now)] + ns else ns;
      if days < 0 && !HasId(withReminder, OverdueId(b.id)) then [OverdueFor(b, userId, now)] + withReminder
      else withReminder
  }

  /** The whole `forEach` over the bills, in order. */
  function Pass(bills: seq<Bills.Bill>, ns: seq<Notification>, today: int, userId: string, now: string): seq<Notification>
    decreases |bills|
  {
    if bills == [] then ns else Pass(bills[1..], BillStep(ns, bills[0], today, userId, now), today, userId, now)
  }

  /** `n` is the notice one of the unpaid `bills` calls for on day `today`. */
  predicate IsNoticeFor(n: Notification, bills: seq<Bills.Bill>, today: int, userId: string, now: string) {
    exists b :: b in bills && !b.paid &&
      ((0 <= Bills.DaysUntilDue(b, today) <= 7 && n == ReminderFor(b, userId, now)) ||
       (Bills.DaysUntilDue(b, today) < 0 && n == OverdueFor(b, userId, now)))
  }

  /** Every unpaid bill already has the notice its due date calls for. */
  predicate Covered(bills: seq<Bills.Bill>, ns: seq<Notification>, today: int) {
    forall b :: b in bills && !b.paid ==>
      (0 <= Bills.DaysUntilDue(b, today) <= 7 ==> HasId(ns, ReminderId(b.id))) &&
      (Bills.DaysUntilDue(b, today) < 0 ==> HasId(ns, OverdueId(b.id)))
  }

  /** No two notifications share an id. */
  predicate DistinctIds(ns: seq<Notification>) {
    forall i, j :: 0 <= i < j < |ns| ==> ns[i].id != ns[j].id
  }

  /**
   * The pass only prepends: the old list is a suffix of the new one, left
   * untouched, and every prepended entry is an unread notice for one of the
   * unpaid bills.
   */
  lemma {:induction false} PassPrepends(bills: seq<Bills.Bill>, ns: seq<Notification>, today: int, userId: string, now: string)
    ensures var r := Pass(bills, ns, today, userId, now);
      |r| >= |ns| && r[|r| - |ns|..] == ns &&
      forall i :: 0 <= i < |r| - |ns| ==> !r[i].read && IsNoticeFor(r[i], bills, today, userId, now)
    decreases |bills|
  {
    if bills != [] {
      var b := bills[0];
      var ns1 := BillStep(ns, b, today, userId, now);
      PassPrepends(bills[1..], ns1, today, userId, now);
      var r := Pass(bills, ns, today, userId, now);
      assert r == Pass(bills[1..], ns1, today, userId, now);
      assert |ns1| >= |ns| && ns1[|ns1| - |ns|..] == ns;
      assert forall i :: 0 <= i < |ns1| - |ns| ==> !ns1[i].read && IsNoticeFor(ns1[i], bills, today, userId, now);
      assert r[|r| - |ns1|..] == ns1;
      assert r[|r| - |ns|..] == ns1[|ns1| - |ns|..];
      forall i | 0 <= i < |r| - |ns|
        ensures !r[i].read && IsNoticeFor(r[i], bills, today, userId, now)
      {
        if i >= |r| - |ns1| {
          assert r[i] == ns1[i - (|r| - |ns1|)];
        } else {
          assert IsNoticeFor(r[i], bills[1..], today, userId, now);
          var c :| c in bills[1..] && !c.paid &&
            ((0 <= Bills.DaysUntilDue(c, today) <= 7 && r[i] == ReminderFor(c, userId, now)) ||
             (Bills.DaysUntilDue(c, today) < 0 && r[i] == OverdueFor(c, userId, now)));
          assert c in bills;
        }
      }
    }
  }

  /** Paid bills never produce notifications. */
  lemma {:induction false} PaidBillsAddNothing(bills: seq<Bills.Bill>, ns: seq<Notification>, today: int, userId: string, now: string)
    requires forall b :: b in bills ==> b.paid
    ensures Pass(bills, ns, today, userId, now) == ns
    decreases |bills|
  {
    if bills != [] {
      assert bills[0] in bills;
      PaidBillsAddNothing(bills[1..], ns, today, userId, now);
    }
  }

  lemma HasIdPrefix(a: seq<Notification>, ns: seq<Notification>, id: string)
    requires HasId(ns, id)
    ensures HasId(a + ns, id)
  {
    var n :| n in ns && n.id == id;
    assert n in a + ns;
  }

  /** Once every unpaid bill has its notice, the pass adds nothing. */
  lemma {:induction false} CoveredPassIsIdentity(bills: seq<Bills.Bill>, ns: seq<Notification>, today: int, userId: string, now: string)
    requires Covered(bills, ns, today)
    ensures Pass(bills, ns, today, userId, now) == ns
    decreases |bills|
  {
    if bills != [] {
      assert bills[0] in bills;
      assert BillStep(ns, bills[0], today, userId, now) == ns;
      CoveredPassIsIdentity(bills[1..], ns, today, userId, now);
    }
  }

  /** After the pass every unpaid bill due within the week has its reminder and every overdue one its warning. */
  lemma {:induction false} PassCovers(bills: seq<Bills.Bill>, ns: seq<Notification>, today: int, userId: string, now: string)
    ensures Covered(bills, Pass(bills, ns, today, userId, now), today)
    decreases |bills|
  {
    if bills != [] {
      var b := bills[0];
      var ns1 := BillStep(ns, b, today, userId, now);
      var r := Pass(bills, ns, today, userId, now);
      PassCovers(bills[1..], ns1, today, userId, now);
      PassPrepends(bills[1..], ns1, today, userId, now);
      assert r == r[..|r| - |ns1|] + ns1;
      if !b.paid {
        var days := Bills.DaysUntilDue(b, today);
        if 0 <= days <= 7 {
          var withReminder :=
            if !HasId(ns, ReminderId(b.id)) then [ReminderFor(b, userId, now)] + ns else ns;
          assert HasId(withReminder, ReminderId(b.id)) by {
            if HasId(ns, ReminderId(b.id)) {
            } else {
              assert ReminderFor(b, userId, now) in withReminder;
            }
          }
          assert ns1 == withReminder;
          HasIdPrefix(r[..|r| - |ns1|], ns1, ReminderId(b.id));
        }
        if days < 0 {
          assert HasId(ns1, OverdueId(b.id)) by {
            if !HasId(ns, OverdueId(b.id)) {
              assert OverdueFor(b, userId, now) in ns1;
            }
          }
          HasIdPrefix(r[..|r| - |ns1|], ns1, OverdueId(b.id));
        }
      }
    }
  }

  /** Running the check twice with the same bills on the same day adds nothing the second time. */
  lemma PassIdempotent(bills: seq<Bills.Bill>, ns: seq<Notification>, today: int, userId: string, now: string, later: string)
    ensures var r := Pass(bills, ns, today, userId, now);
      Pass(bills, r, today, userId, later) == r
  {
    PassCovers(bills, ns, today, userId, now);
    CoveredPassIsIdentity(bills, Pass(bills, ns, today, userId, now), today, userId, later);
  }

  lemma PrependFreshId(n: Notification, ns: seq<Notification>)
    requires DistinctIds(ns) && !HasId(ns, n.id)
    ensures DistinctIds([n] + ns)
  {
    var r := [n] + ns;
    forall i, j | 0 <= i < j < |r|
      ensures r[i].id != r[j].id
    {
      if i == 0 {
        assert r[j] in ns;
      } else {
        assert r[i] == ns[i - 1] && r[j] == ns[j - 1];
      }
    }
  }

  /** The pass never adds an id that is already present: distinct ids stay distinct. */
  lemma {:induction false} PassKeepsIdsDistinct(bills: seq<Bills.Bill>, ns: seq<Notification>, today: int, userId: string, now: string)
    requires DistinctIds(ns)
    ensures DistinctIds(Pass(bills, ns, today, userId, now))
    decreases |bills|
  {
    if bills != [] {
      var b := bills[0];
      if !b.paid {
        var days := Bills.DaysUntilDue(b, today);
        var withReminder :=
          if 0 <= days <= 7 && !HasId(ns, ReminderId(b.id)) then [ReminderFor(b, userId, now)] + ns else ns;
        if 0 <= days <= 7 && !HasId(ns, ReminderId(b.id)) {
          PrependFreshId(ReminderFor(b, userId, now), ns);
        }
        if days < 0 && !HasId(withReminder, OverdueId(b.id)) {
          PrependFreshId(OverdueFor(b, userId, now), withReminder);
        }
      }
      PassKeepsIdsDistinct(bills[1..], BillStep(ns, b, today, userId, now), today, userId, now);
    }
  }

  /**
   * The loop of `checkBillReminders` over the stored bills, prepending to the
   * stored notifications in place.
   */
  method ReminderPass(bills: seq<Bills.Bill>, existing: seq<Notification>, today: int, userId: string, now: string)
    returns (ns: seq<Notification>)
    ensures ns == Pass(bills, existing, today, userId, now)
  {
    ns := existing;
    var i := 0;
    while i < |bills|
      invariant 0 <= i <= |bills|
      invariant Pass(bills[i..], ns, today, userId, now) == Pass(bills, existing, today, userId, now)
      decreases |bills| - i
    {
      var b := bills[i];
      ghost var before := ns;
      if !b.paid {
        var days := Bills.DaysUntilDue(b, today);
        if days <= 7 && days >= 0 && !HasId(ns, ReminderId(b.id)) {
          ns := [ReminderFor(b, userId, now)] + ns;
        }
        if days < 0 && !HasId(ns, OverdueId(b.id)) {
          ns := [OverdueFor(b, userId, now)] + ns;
        }
      }
      assert ns == BillStep(before, b, today, userId, now);
      assert bills[i..][1..] == bills[i + 1..];
      i := i + 1;
    }
  }

  // ---------------------------------------------------------------------------
  // List operations

  /** `markAsRead(id)` */
  function MarkAsRead(ns: seq<Notification>, id: string): (r: seq<Notification>)
    ensures |r| == |ns|
    ensures forall i :: 0 <= i < |ns| ==> r[i] == if ns[i].id == id then ns[i].(read := true) else ns[i]
  {
    if ns == [] then []
    else [if ns[0].id == id then ns[0].(read := true) else ns[0]] + MarkAsRead(ns[1..], id)
  }

  /** `deleteNotification(id)` */
  function Delete(ns: seq<Notification>, id: string): (r: seq<Notification>)
    ensures |r| <= |ns|
    ensures forall n :: n in r <==> n in ns && n.id != id
  {
    if ns == [] then [] else (if ns[0].id != id then [ns[0]] else []) + Delete(ns[1..], id)
  }

  /** Deleting keeps the order of what is left: it distributes over concatenation. */
  lemma {:induction false} DeleteAppend(a: seq<Notification>, b: seq<Notification>, id: string)
    ensures Delete(a + b, id) == Delete(a, id) + Delete(b, id)
    decreases |a|
  {
    if a != [] {
      assert (a + b)[0] == a[0] && (a + b)[1..] == a[1..] + b;
      DeleteAppend(a[1..], b, id);
    } else {
      assert a + b == b;
    }
  }

  /** Deleting an id that is not present changes nothing. */
  lemma {:induction false} DeleteAbsent(ns: seq<Notification>, id: string)
    requires !HasId(ns, id)
    ensures Delete(ns, id) == ns
    decreases |ns|
  {
    if ns != [] {
      assert ns[0] in ns;
      assert !HasId(ns[1..], id) by {
        forall n | n in ns[1..] ensures n.id != id {
          assert n in ns;
        }
      }
      DeleteAbsent(ns[1..], id);
    }
  }

  /** `markAllAsRead()` */
  function MarkAllAsRead(ns: seq<Notification>): (r: seq<Notification>)
    ensures |r| == |ns|
    ensures forall i :: 0 <= i < |ns| ==> r[i] == ns[i].(read := true)
  {
    if ns == [] then [] else [ns[0].(read := true)] + MarkAllAsRead(ns[1..])
  }

  /** `notifications.filter((n) => !n.read).length` */
  function UnreadCount(ns: seq<Notification>): (n: nat)
    ensures n <= |ns|
  {
    if ns == [] then 0 else (if ns[0].read then 0 else 1) + UnreadCount(ns[1..])
  }

  /** The count is zero exactly when everything is read. */
  lemma {:induction false} UnreadCountZero(ns: seq<Notification>)
    ensures UnreadCount(ns) == 0 <==> forall i :: 0 <= i < |ns| ==> ns[i].read
    decreases |ns|
  {
    if ns != [] {
      UnreadCountZero(ns[1..]);
      assert forall i :: 1 <= i < |ns| ==> ns[i] == ns[1..][i - 1];
    }
  }

  /** After marking all as read the unread count is zero. */
  lemma MarkAllLeavesNoneUnread(ns: seq<Notification>)
    ensures UnreadCount(MarkAllAsRead(ns)) == 0
  {
    UnreadCountZero(MarkAllAsRead(ns));
  }

  /** Marking one id read lowers the count by the unread entries with that id. */
  lemma {:induction false} MarkAsReadCount(ns: seq<Notification>, id: string)
    ensures UnreadCount(MarkAsRead(ns, id)) == UnreadCount(Delete(ns, id))
    decreases |ns|
  {
    if ns != [] {
      var r := MarkAsRead(ns, id);
      assert r[1..] == MarkAsRead(ns[1..], id);
      MarkAsReadCount(ns[1..], id);
      var kept := if ns[0].id != id then [ns[0]] else [];
      assert Delete(ns, id) == kept + Delete(ns[1..], id);
      UnreadCountAppend(kept, Delete(ns[1..], id));
    }
  }

  lemma {:induction false} UnreadCountAppend(a: seq<Notification>, b: seq<Notification>)
    ensures UnreadCount(a + b) == UnreadCount(a) + UnreadCount(b)
    decreases |a|
  {
    if a != [] {
      assert (a + b)[0] == a[0] && (a + b)[1..] == a[1..] + b;
      UnreadCountAppend(a[1..], b);
    } else {
      assert a + b == b;
    }
  }

  /** Every notice the reminder pass adds is unread: the count grows by the number added. */
  lemma PassRaisesUnreadCount(bills: seq<Bills.Bill>, ns: seq<Notification>, today: int, userId: string, now: string)
    ensures var r := Pass(bills, ns, today, userId, now);
      UnreadCount(r) == UnreadCount(ns) + (|r| - |ns|)
  {
    var r := Pass(bills, ns, today, userId, now);
    PassPrepends(bills, ns, today, userId, now);
    var added := r[..|r| - |ns|];
    assert r == added + ns;
    UnreadCountAppend(added, ns);
    AllUnread(added);
  }

  lemma {:induction false} AllUnread(ns: seq<Notification>)
    requires forall i :: 0 <= i < |ns| ==> !ns[i].read
    ensures UnreadCount(ns) == |ns|
    decreases |ns|
  {
    if ns != [] {
      AllUnread(ns[1..]);
    }
  }

  // ---------------------------------------------------------------------------
  // Relative time

  /** The buckets of `formatDate`; `OnDate` is the absolute date printed by the locale. */
  datatype Age = JustNow | MinutesAgo(n: nat) | HoursAgo(n: nat) | DaysAgo(n: nat) | OnDate

  /** Buckets the whole seconds elapsed since the notification was created. */
  function AgeOf(diffInSeconds: int): (a: Age)
    ensures a == JustNow <==> diffInSeconds < 60
    ensures a.MinutesAgo? <==> 60 <= diffInSeconds < 3600
    ensures a.HoursAgo? <==> 3600 <= diffInSeconds < 86400
    ensures a.DaysAgo? <==> 86400 <= diffInSeconds < 604800
    ensures a == OnDate <==> diffInSeconds >= 604800
    ensures a.MinutesAgo? ==> 1 <= a.n <= 59 && a.n * 60 <= diffInSeconds < (a.n + 1) * 60
    ensures a.HoursAgo? ==> 1 <= a.n <= 23 && a.n * 3600 <= diffInSeconds < (a.n + 1) * 3600
    ensures a.DaysAgo? ==> 1 <= a.n <= 6 && a.n * 86400 <= diffInSeconds < (a.n + 1) * 86400
  {
    if diffInSeconds < 60 then JustNow
    else if diffInSeconds < 3600 then MinutesAgo(diffInSeconds / 60)
    else if diffInSeconds < 86400 then HoursAgo(diffInSeconds / 3600)
    else if diffInSeconds < 604800 then DaysAgo(diffInSeconds / 86400)
    else OnDate
  }

  /** The text shown for a relative bucket; the absolute date is rendered by the locale. */
  function AgeLabel(a: Age): Option<string> {
    match a
    case JustNow => Some("Just now")
    case MinutesAgo(n) => Some(Text.NatToString(n) + " minutes ago")
    case HoursAgo(n) => Some(Text.NatToString(n) + " hours ago")
    case DaysAgo(n) => Some(Text.NatToString(n) + " days ago")
    case OnDate => None
  }

  /** Distinct relative buckets are shown with distinct texts. */
  lemma AgeLabelInjective(a: Age, b: Age)
    requires a != OnDate && b != OnDate && AgeLabel(a) == AgeLabel(b)
    ensures a == b
  {
    LabelMarks(a);
    LabelMarks(b);
    match a
    case JustNow =>
    case MinutesAgo(m) => NumberPrefix(m, b.n, " minutes ago");
    case HoursAgo(m) => NumberPrefix(m, b.n, " hours ago");
    case DaysAgo(m) => NumberPrefix(m, b.n, " days ago");
  }

  /**
   * The characters of a label that name its bucket: the last one ('w' only in
   * "Just now") and the tenth from the end ('i' of "minutes", the blank
   * before "hours", a digit before " days ago").
   */
  lemma LabelMarks(a: Age)
    requires a != OnDate
    ensures var s := AgeLabel(a).value;
      |s| >= 8 && (a == JustNow <==> s[|s| - 1] == 'w') &&
      (a != JustNow ==> |s| >= 10 && (a.MinutesAgo? <==> s[|s| - 10] == 'i') && (a.HoursAgo? <==> s[|s| - 10] == ' '))
  {
    var s := AgeLabel(a).value;
    match a
    case JustNow =>
    case MinutesAgo(n) =>
      assert s == Text.NatToString(n) + " minutes ago";
      assert s[|s| - 10] == 'i' && s[|s| - 1] == 'o';
    case HoursAgo(n) =>
      assert s == Text.NatToString(n) + " hours ago";
      assert s[|s| - 10] == ' ' && s[|s| - 1] == 'o';
    case DaysAgo(n) =>
      var d := Text.NatToString(n);
      assert s == d + " days ago";
      assert s[|s| - 10] == d[|d| - 1];
      assert Text.IsDigit(d[|d| - 1]);
      assert s[|s| - 1] == 'o';
  }

  /** Equal labels of one bucket carry equal numbers. */
  lemma NumberPrefix(m: nat, n: nat, suffix: string)
    requires Text.NatToString(m) + suffix == Text.NatToString(n) + suffix
    ensures m == n
  {
    var a, b := Text.NatToString(m), Text.NatToString(n);
    assert |a| == |b|;
    assert a == (a + suffix)[..|a|] == (b + suffix)[..|b|] == b;
    Text.NatToStringRoundTrip(m);
    Text.NatToStringRoundTrip(n);
  }

  // ---------------------------------------------------------------------------
  // The page state

  /** The list a user sees the first time, when nothing is stored. */
  function Welcome(userId: string, now: string): (ns: seq<Notification>)
    ensures |ns| == 1 && ns[0].id == "1" && ns[0].kind == Info && !ns[0].read
  {
    [Notification("1", Info, "Welcome to SmartDocs!", now, false, userId)]
  }

  /**
   * The page: the list shown and the lists stored per user
   * (`notifications_<id>` in the browser's local storage).
   */
  class NotificationsPage {
    var notifications: seq<Notification>
    var saved: map<string, seq<Notification>>

    constructor (saved: map<string, seq<Notification>>)
      ensures notifications == [] && this.saved == saved
    {
      notifications := [];
      this.saved := saved;
    }

    /** `checkBillReminders`, with the stored bills of the user as `bills`. */
    method CheckBillReminders(user: Option<string>, bills: Option<seq<Bills.Bill>>, today: int, now: string)
      modifies this
      ensures user.None? || bills.None? ==> notifications == old(notifications) && saved == old(saved)
      ensures user.Some? && bills.Some? ==>
        var existing := if user.value in old(saved) then old(saved)[user.value] else [];
        notifications == Pass(bills.value, existing, today, user.value, now) &&
        saved == old(saved)[user.value := notifications]
    {
      if user.None? || bills.None? {
        return;
      }
      var existing := if user.value in saved then saved[user.value] else [];
      var ns := ReminderPass(bills.value, existing, today, user.value, now);
      saved := saved[user.value := ns];
      notifications := ns;
    }

    /** `loadNotifications`: run the reminder pass, then show what is stored, or the welcome list. */
    method Load(user: Option<string>, bills: Option<seq<Bills.Bill>>, today: int, now: string)
      modifies this
      ensures user.None? ==> notifications == old(notifications) && saved == old(saved)
      ensures user.Some? ==> user.value in saved && notifications == saved[user.value]
      ensures user.Some? && bills.None? && user.value !in old(saved) ==>
        notifications == Welcome(user.value, now) && saved == old(saved)[user.value := notifications]
      ensures user.Some? && bills.None? && user.value in old(saved) ==>
        notifications == old(saved)[user.value] && saved == old(saved)
      ensures user.Some? && bills.Some? ==>
        var existing := if user.value in old(saved) then old(saved)[user.value] else [];
        notifications == Pass(bills.value, existing, today, user.value, now) &&
        saved == old(saved)[user.value := notifications]
    {
      if user.None? {
        return;
      }
      CheckBillReminders(user, bills, today, now);
      if user.value in saved {
        notifications := saved[user.value];
      } else {
        notifications := Welcome(user.value, now);
        saved := saved[user.value := notifications];
      }
    }

    method MarkRead(user: Option<string>, id: string)
      modifies this
      ensures user.None? ==> notifications == old(notifications) && saved == old(saved)
      ensures user.Some? ==>
        notifications == MarkAsRead(old(notifications), id) && saved == old(saved)[user.value := notifications]
    {
      if user.Some? {
        notifications := MarkAsRead(notifications, id);
        saved := saved[user.value := notifications];
      }
    }

    method DeleteNotification(user: Option<string>, id: string)
      modifies this
      ensures user.None? ==> notifications == old(notifications) && saved == old(saved)
      ensures user.Some? ==>
        notifications == Delete(old(notifications), id) && saved == old(saved)[user.value := notifications]
    {
      if user.Some? {
        notifications := Delete(notifications, id);
        saved := saved[user.value := notifications];
      }
    }

    method MarkAllRead(user: Option<string>)
      modifies this
      ensures user.None? ==> notifications == old(notifications) && saved == old(saved)
      ensures user.Some? ==>
        notifications == MarkAllAsRead(old(notifications)) && saved == old(saved)[user.value := notifications]
    {
      if user.Some? {
        notifications := MarkAllAsRead(notifications);
        saved := saved[user.value := notifications];
      }
    }

    function Unread(): (n: nat)
      reads this
      ensures n <= |notifications|
    {
      UnreadCount(notifications)
    }
  }
}
