/**
 * The bill rules of the Bills page: status classification, the pending total,
 * the due-soon list, file validation and the add / mark-paid / delete
 * operations on the bill list.
 *
 * Dates are day numbers: `dueDay` is the due date and `today` the current
 * day, so `dueDay - today` is the number of days until the bill is due.
 * Amounts are integers in minor currency units.
 */
module Bills {
  import opened Wrappers
  import opened Files

  datatype Bill = Bill(
    id: string,
    billType: string,
    amount: int,
    dueDay: int,
    frequency: string,
    fileUrl: string,
    uploadedAt: string,
    updatedAt: string,
    userId: string,
    paid: bool,
    reminderSent: bool)

  function DaysUntilDue(b: Bill, today: int): int {
    b.dueDay - today
  }

  /** Unpaid and due within the coming week (today included). */
  predicate DueWithinWeek(b: Bill, today: int) {
    !b.paid && 0 <= DaysUntilDue(b, today) <= 7
  }

  datatype Status = Paid | Overdue | DueSoon | Upcoming

  /** `getStatusBadge`: exactly one status per bill, `Paid` whatever the date. */
  function StatusOf(b: Bill, today: int): (r: Status)
    ensures r == Paid <==> b.paid
    ensures r == Overdue <==> !b.paid && DaysUntilDue(b, today) < 0
    ensures r == DueSoon <==> DueWithinWeek(b, today)
    ensures r == Upcoming <==> !b.paid && DaysUntilDue(b, today) > 7
  {
    var daysUntilDue := DaysUntilDue(b, today);
    if b.paid then Paid
    else if daysUntilDue < 0 then Overdue
    else if daysUntilDue <= 7 then DueSoon
    else Upcoming
  }

  /** `bills.reduce((sum, bill) => sum + (bill.paid ? 0 : bill.amount), 0)`, folded from the left. */
  function PendingTotal(bills: seq<Bill>): int {
    if bills == [] then 0
    else
      var last := bills[|bills| - 1];
      PendingTotal(bills[..|bills| - 1]) + (if last.paid then 0 else last.amount)
  }

  /** The unpaid bills, in order. */
  function Unpaid(bills: seq<Bill>): seq<Bill> {
    if bills == [] then [] else (if bills[0].paid then [] else [bills[0]]) + Unpaid(bills[1..])
  }

  /** The sum of all amounts. */
  function AmountSum(bills: seq<Bill>): int {
    if bills == [] then 0 else bills[0].amount + AmountSum(bills[1..])
  }

  lemma {:induction false} UnpaidAppend(a: seq<Bill>, b: seq<Bill>)
    ensures Unpaid(a + b) == Unpaid(a) + Unpaid(b)
    decreases |a|
  {
    if a != [] {
      assert (a + b)[0] == a[0] && (a + b)[1..] == a[1..] + b;
      UnpaidAppend(a[1..], b);
    } else {
      assert a + b == b;
    }
  }

  lemma {:induction false} AmountSumAppend(a: seq<Bill>, b: seq<Bill>)
    ensures AmountSum(a + b) == AmountSum(a) + AmountSum(b)
    decreases |a|
  {
    if a != [] {
      assert (a + b)[0] == a[0] && (a + b)[1..] == a[1..] + b;
      AmountSumAppend(a[1..], b);
    } else {
      assert a + b == b;
    }
  }

  /** The pending total is the sum of the unpaid amounts: paid bills count 0. */
  lemma {:induction false} PendingIsUnpaidSum(bills: seq<Bill>)
    ensures PendingTotal(bills) == AmountSum(Unpaid(bills))
    decreases |bills|
  {
    if bills != [] {
      var init, last := bills[..|bills| - 1], bills[|bills| - 1];
      assert bills == init + [last];
      PendingIsUnpaidSum(init);
      UnpaidAppend(init, [last]);
      AmountSumAppend(Unpaid(init), Unpaid([last]));
    }
  }

  /** `upcomingBills`: the unpaid bills due within the week, in order. */
  function DueSoonBills(bills: seq<Bill>, today: int): (r: seq<Bill>)
    ensures |r| <= |bills|
    ensures forall b :: b in r <==> b in bills && DueWithinWeek(b, today)
  {
    if bills == [] then []
    else (if DueWithinWeek(bills[0], today) then [bills[0]] else []) + DueSoonBills(bills[1..], today)
  }

  /** The bills the mount-time toast counts (`checkUpcomingBills`): `0 < days <= 7`. */
  function ToastBills(bills: seq<Bill>, today: int): (r: seq<Bill>)
    ensures |r| <= |bills|
    ensures forall b :: b in r <==> b in bills && !b.paid && 0 < DaysUntilDue(b, today) <= 7
  {
    if bills == [] then []
    else
      var b := bills[0];
      (if !b.paid && 0 < DaysUntilDue(b, today) <= 7 then [b] else []) + ToastBills(bills[1..], today)
  }

  /**
   * Both filters keep the order of the list: filtering distributes over
   * concatenation, so the number of bills shown on the page is the number of
   * qualifying bills of each part, duplicates included.
   */
  lemma {:induction false} DueSoonAppend(a: seq<Bill>, b: seq<Bill>, today: int)
    ensures DueSoonBills(a + b, today) == DueSoonBills(a, today) + DueSoonBills(b, today)
    ensures ToastBills(a + b, today) == ToastBills(a, today) + ToastBills(b, today)
    decreases |a|
  {
    if a != [] {
      assert (a + b)[0] == a[0] && (a + b)[1..] == a[1..] + b;
      DueSoonAppend(a[1..], b, today);
    } else {
      assert a + b == b;
    }
  }

  /** A single bill is listed once exactly when it is due within the week. */
  lemma DueSoonSingle(b: Bill, today: int)
    ensures |DueSoonBills([b], today)| == if DueWithinWeek(b, today) then 1 else 0
  {
    assert [b][1..] == [];
  }

  /** The due-soon list is exactly the bills whose badge says "Due Soon". */
  lemma DueSoonListMatchesBadge(bills: seq<Bill>, today: int, b: Bill)
    ensures b in DueSoonBills(bills, today) <==> b in bills && StatusOf(b, today) == DueSoon
  {
  }

  /** The toast's window and the due-soon list differ only at day 0. */
  lemma ToastSkipsDueToday(bills: seq<Bill>, today: int, b: Bill)
    ensures b in ToastBills(bills, today) ==> b in DueSoonBills(bills, today)
    ensures b in DueSoonBills(bills, today) && b !in ToastBills(bills, today) <==>
            b in bills && !b.paid && DaysUntilDue(b, today) == 0
  {
  }

  // ---------------------------------------------------------------------------
  // Files and the upload form

  const BillFileTypes: seq<string> := ["application/pdf", "image/png", "image/jpeg", "image/jpg"]
  const MaxBillFileSize: nat := 10 * MiB

  /** `handleFileChange`: the type is checked before the size. */
  function CheckBillFile(f: FileInfo): (r: FileCheck)
    ensures r == FileAccepted <==> f.mime in BillFileTypes && f.size <= MaxBillFileSize
    ensures r == InvalidType <==> f.mime !in BillFileTypes
  {
    if f.mime !in BillFileTypes then InvalidType
    else if f.size > MaxBillFileSize then TooLarge
    else FileAccepted
  }

  /** The add-bill form; `amount` is the text typed into the amount field. */
  datatype BillForm = BillForm(billType: string, amount: string, dueDay: int, frequency: string, file: Option<FileInfo>)

  function EmptyForm(today: int): BillForm {
    BillForm("", "", today, "Monthly", None)
  }

  /** `!formData.bill_type || !formData.amount || !formData.file` rejects. */
  predicate FormComplete(form: BillForm) {
    form.billType != "" && form.amount != "" && form.file.Some?
  }

  /**
   * The bill `handleUpload` builds. `id` is the clock reading used as id,
   * `amount` the parsed amount, `fileUrl` the file read as a data URL.
   */
  function NewBill(form: BillForm, id: string, amount: int, fileUrl: string, now: string, userId: string): (b: Bill)
    ensures !b.paid && !b.reminderSent
    ensures b.id == id && b.billType == form.billType && b.amount == amount && b.dueDay == form.dueDay
    ensures b.userId == userId
  {
    Bill(id, form.billType, amount, form.dueDay, form.frequency, fileUrl, now, now, userId, false, false)
  }

  /** `markAsPaid(id)`: every bill with that id becomes paid, nothing else changes. */
  function MarkPaid(bills: seq<Bill>, id: string, now: string): (r: seq<Bill>)
    ensures |r| == |bills|
    ensures forall i :: 0 <= i < |bills| ==>
      r[i] == if bills[i].id == id then bills[i].(paid := true, updatedAt := now) else bills[i]
  {
    if bills == [] then []
    else
      var b := bills[0];
      [if b.id == id then b.(paid := true, updatedAt := now) else b] + MarkPaid(bills[1..], id, now)
  }

  /** `handleDelete(id)`: the bills with another id, in order. */
  function RemoveBill(bills: seq<Bill>, id: string): (r: seq<Bill>)
    ensures |r| <= |bills|
    ensures forall b :: b in r <==> b in bills && b.id != id
  {
    if bills == [] then []
    else (if bills[0].id != id then [bills[0]] else []) + RemoveBill(bills[1..], id)
  }

  /** Deleting keeps the order: it distributes over concatenation. */
  lemma {:induction false} RemoveBillAppend(a: seq<Bill>, b: seq<Bill>, id: string)
    ensures RemoveBill(a + b, id) == RemoveBill(a, id) + RemoveBill(b, id)
    decreases |a|
  {
    if a != [] {
      assert (a + b)[0] == a[0] && (a + b)[1..] == a[1..] + b;
      RemoveBillAppend(a[1..], b, id);
    } else {
      assert a + b == b;
    }
  }

  /** Marking bills paid lowers the pending total exactly as deleting them would. */
  lemma {:induction false} MarkPaidLikeRemove(bills: seq<Bill>, id: string, now: string)
    ensures PendingTotal(MarkPaid(bills, id, now)) == PendingTotal(RemoveBill(bills, id))
  {
    PendingIsUnpaidSum(MarkPaid(bills, id, now));
    PendingIsUnpaidSum(RemoveBill(bills, id));
    UnpaidSumMarkPaid(bills, id, now);
  }

  lemma {:induction false} UnpaidSumMarkPaid(bills: seq<Bill>, id: string, now: string)
    ensures AmountSum(Unpaid(MarkPaid(bills, id, now))) == AmountSum(Unpaid(RemoveBill(bills, id)))
    decreases |bills|
  {
    if bills != [] {
      var m, d := MarkPaid(bills, id, now), RemoveBill(bills, id);
      var m1, d1 := MarkPaid(bills[1..], id, now), RemoveBill(bills[1..], id);
      UnpaidSumMarkPaid(bills[1..], id, now);
      var head := if bills[0].id == id then bills[0].(paid := true, updatedAt := now) else bills[0];
      assert m == [head] + m1;
      UnpaidAppend([head], m1);
      AmountSumAppend(Unpaid([head]), Unpaid(m1));
      var kept := if bills[0].id != id then [bills[0]] else [];
      assert d == kept + d1;
      UnpaidAppend(kept, d1);
      AmountSumAppend(Unpaid(kept), Unpaid(d1));
      assert Unpaid([head]) == Unpaid(kept) by {
        if bills[0].id != id {
          assert kept == [head];
        } else {
          assert Unpaid([head]) == [] && Unpaid(kept) == [];
        }
      }
    }
  }

  /** Adding an unpaid bill raises the pending total by its amount. */
  lemma {:induction false} PendingAfterAdd(bills: seq<Bill>, b: Bill)
    requires !b.paid
    ensures PendingTotal(bills + [b]) == PendingTotal(bills) + b.amount
  {
    assert (bills + [b])[..|bills|] == bills;
  }

  // ---------------------------------------------------------------------------
  // The mount-time toast

  /**
   * As written, the mount effect calls `checkUpcomingBills` right after
   * starting `loadBills`, so it filters the list of the first render, which
   * is always empty: the toast counts no bill, whatever is stored.
   */
  function MountToastCountAsWritten(stored: seq<Bill>, today: int): nat {
    var billsAtFirstRender: seq<Bill> := [];
    |ToastBills(billsAtFirstRender, today)|
  }

  lemma MountToastAsWrittenNeverFires(stored: seq<Bill>, today: int)
    ensures MountToastCountAsWritten(stored, today) == 0
  {
  }

  /** A stored bill due in three days that the toast as written does not report. */
  lemma MountToastMissesDueBill()
    ensures var b := Bill("1", "Water", 500, 13, "Monthly", "", "", "", "u", false, false);
      0 < DaysUntilDue(b, 10) <= 7 && MountToastCountAsWritten([b], 10) == 0 &&
      MountToastCount([b], 10) == 1
  {
    var b := Bill("1", "Water", 500, 13, "Monthly", "", "", "", "u", false, false);
    assert ToastBills([b], 10) == [b];
  }

  /** The count the toast is evidently meant to show: over the loaded bills. */
  function MountToastCount(stored: seq<Bill>, today: int): (n: nat)
    ensures n <= |stored|
    ensures n > 0 <==> exists b :: b in stored && !b.paid && 0 < DaysUntilDue(b, today) <= 7
  {
    var r := ToastBills(stored, today);
    assert r != [] ==> r[0] in r;
    |r|
  }

  // ---------------------------------------------------------------------------
  // The page state

  datatype UploadOutcome = MissingInformation | NoUser | Added(bill: Bill)

  class BillsPage {
    var bills: seq<Bill>
    var form: BillForm
    var uploadDialogOpen: bool

    constructor (today: int)
      ensures bills == [] && form == EmptyForm(today) && !uploadDialogOpen
    {
      bills, form, uploadDialogOpen := [], EmptyForm(today), false;
    }

    /** Mount: load the stored bills of the user and count the bills due within the week. */
    method Load(user: Option<string>, stored: Option<seq<Bill>>, today: int) returns (toast: nat)
      modifies this
      ensures bills == if user.Some? && stored.Some? then stored.value else old(bills)
      ensures form == old(form) && uploadDialogOpen == old(uploadDialogOpen)
      ensures toast == MountToastCount(bills, today)
    {
      if user.Some? && stored.Some? {
        bills := stored.value;
      }
      toast := MountToastCount(bills, today);
    }

    method FileChange(f: FileInfo) returns (check: FileCheck)
      modifies this
      ensures check == CheckBillFile(f)
      ensures form == if check == FileAccepted then old(form).(file := Some(f)) else old(form)
      ensures bills == old(bills) && uploadDialogOpen == old(uploadDialogOpen)
    {
      check := CheckBillFile(f);
      if check == FileAccepted {
        form := form.(file := Some(f));
      }
    }

    /** `handleUpload` once the file has been read (`fileUrl`) and the amount parsed. */
    method Upload(user: Option<string>, id: string, amount: int, fileUrl: string, now: string, today: int)
      returns (outcome: UploadOutcome)
      modifies this
      ensures !FormComplete(old(form)) ==> outcome == MissingInformation
      ensures FormComplete(old(form)) && user.None? ==> outcome == NoUser
      ensures !outcome.Added? ==> bills == old(bills) && form == old(form) && uploadDialogOpen == old(uploadDialogOpen)
      ensures outcome.Added? ==>
        outcome.bill == NewBill(old(form), id, amount, fileUrl, now, user.value) &&
        bills == old(bills) + [outcome.bill] && form == EmptyForm(today) && !uploadDialogOpen
    {
      if !FormComplete(form) {
        return MissingInformation;
      }
      if user.None? {
        return NoUser;
      }
      var b := NewBill(form, id, amount, fileUrl, now, user.value);
      bills := bills + [b];
      form := EmptyForm(today);
      uploadDialogOpen := false;
      outcome := Added(b);
    }

    method MarkAsPaid(user: Option<string>, id: string, now: string)
      modifies this
      ensures bills == if user.Some? then MarkPaid(old(bills), id, now) else old(bills)
      ensures form == old(form) && uploadDialogOpen == old(uploadDialogOpen)
    {
      if user.Some? {
        bills := MarkPaid(bills, id, now);
      }
    }

    method Delete(user: Option<string>, id: string)
      modifies this
      ensures bills == if user.Some? then RemoveBill(old(bills), id) else old(bills)
      ensures form == old(form) && uploadDialogOpen == old(uploadDialogOpen)
    {
      if user.Some? {
        bills := RemoveBill(bills, id);
      }
    }
  }
}
