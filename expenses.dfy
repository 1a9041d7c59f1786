/**
 * The driver's expenses page: expenses are attached to today's duty row, an
 * optional receipt is uploaded first, and the page shows the running total.
 *
 * `ExpenseForm` is the page's state as a value and `AddExpenseSpec` the
 * outcome of one press of "add"; the class `ExpensesPage` performs it step by
 * step. Amounts are the values `parseFloat` produced, passed in as reals.
 */
module Expenses {
  import opened Wrappers
  import opened Text

  datatype Expense = Expense(id: string, dutyId: string, kind: string, amount: real,
                             description: Option<string>, receiptPath: Option<string>)

  /** The row `addExpense` inserts. */
  datatype NewExpense = NewExpense(dutyId: string, kind: string, amount: real,
                                   description: Option<string>, receiptPath: Option<string>)

  datatype ExpenseForm = ExpenseForm(
    currentDuty: Option<string>,   // id of today's duty row, if any
    expenses: seq<Expense>,
    kind: string,
    amount: string,                // the amount field's text
    description: string,
    receipt: Option<string>,       // name of the chosen receipt file
    uploading: bool,
    message: string)

  const NoDutyMessage := "No active duty. Start your journey first."
  const InvalidAmountMessage := "Enter a valid amount"
  const AddedMessage := "Expense added successfully!"

  // ---------------------------------------------------------------------------
  // Totals
  // ---------------------------------------------------------------------------

  /** `expenses.reduce((sum, e) => sum + e.amount, 0)`, summing from the first expense. */
  function TotalFrom(sum: real, es: seq<Expense>): real
    decreases |es|
  {
    if es == [] then sum else TotalFrom(sum + es[0].amount, es[1..])
  }

  function TotalExpenses(es: seq<Expense>): real {
    TotalFrom(0.0, es)
  }

  /** The reference sum, from the last expense back. */
  function AmountSum(es: seq<Expense>): real {
    if es == [] then 0.0 else AmountSum(es[..|es| - 1]) + es[|es| - 1].amount
  }

  lemma {:induction false} TotalFromSum(sum: real, es: seq<Expense>)
    ensures TotalFrom(sum, es) == sum + AmountSum(es)
    decreases |es|
  {
    if es != [] {
      TotalFromSum(sum + es[0].amount, es[1..]);
      AmountSumFirst(es);
    }
  }

  lemma {:induction false} AmountSumFirst(es: seq<Expense>)
    requires es != []
    ensures AmountSum(es) == es[0].amount + AmountSum(es[1..])
  {
    if |es| > 1 {
      AmountSumFirst(es[..|es| - 1]);
      assert es[..|es| - 1][1..] == es[1..][..|es[1..]| - 1];
    }
  }

  /** Adding an expense to the list adds its amount to the total. */
  lemma TotalAppend(es: seq<Expense>, e: Expense)
    ensures TotalExpenses(es + [e]) == TotalExpenses(es) + e.amount
  {
    TotalFromSum(0.0, es + [e]);
    TotalFromSum(0.0, es);
    assert (es + [e])[..|es|] == es;
  }

  /** Every inserted amount is positive, so a list of such expenses never totals below zero. */
  lemma {:induction false} TotalNonNegative(es: seq<Expense>)
    requires forall k :: 0 <= k < |es| ==> es[k].amount > 0.0
    ensures TotalExpenses(es) >= 0.0
    ensures es != [] ==> TotalExpenses(es) > 0.0
  {
    TotalFromSum(0.0, es);
    AmountSumPositive(es);
  }

  lemma {:induction false} AmountSumPositive(es: seq<Expense>)
    requires forall k :: 0 <= k < |es| ==> es[k].amount > 0.0
    ensures AmountSum(es) >= 0.0
    ensures es != [] ==> AmountSum(es) > 0.0
  {
    if es != [] {
      AmountSumPositive(es[..|es| - 1]);
    }
  }

  // ---------------------------------------------------------------------------
  // Receipt names
  // ---------------------------------------------------------------------------

  /** `receipt_${Date.now()}.${ext}`, the extension being the text after the file name's last dot. */
  function ReceiptName(now: nat, fileName: string): string {
    "receipt_" + NatToString(now) + "." + AfterLast(fileName, '.')
  }

  /** The storage path of a receipt: `folder` stands for the folder text the page interpolates. */
  function ReceiptPath(folder: string, now: nat, fileName: string): string {
    folder + "/" + ReceiptName(now, fileName)
  }

  /** The stored receipt keeps the chosen file's extension, whatever the folder. */
  lemma ReceiptKeepsExtension(folder: string, now: nat, fileName: string)
    ensures AfterLast(ReceiptPath(folder, now, fileName), '.') == AfterLast(fileName, '.')
  {
    var ext := AfterLast(fileName, '.');
    var path := ReceiptPath(folder, now, fileName);
    AfterLastIsLastPart(fileName, '.');
    assert path == (folder + "/" + "receipt_" + NatToString(now)) + ['.'] + ext;
    assert EndsWith(path, ['.'] + ext);
    EndsWithSeparated(path, '.', ext);
  }

  /** For a file name without '/', the last segment of the path is exactly the built receipt name. */
  lemma ReceiptNameIsLastSegment(folder: string, now: nat, fileName: string)
    requires '/' !in fileName
    ensures AfterLast(ReceiptPath(folder, now, fileName), '/') == ReceiptName(now, fileName)
  {
    var ext := AfterLast(fileName, '.');
    var name := ReceiptName(now, fileName);
    AfterLastIsLastPart(fileName, '.');
    assert ext == fileName[|fileName| - |ext|..];
    assert '/' !in "receipt_" + NatToString(now) + ".";
    assert '/' !in name;
    var path := ReceiptPath(folder, now, fileName);
    assert path == folder + ['/'] + name;
    assert EndsWith(path, ['/'] + name);
    EndsWithSeparated(path, '/', name);
  }

  // ---------------------------------------------------------------------------
  // Adding an expense
  // ---------------------------------------------------------------------------

  /**
   * The result of one press of "add": the new page state, the receipt path
   * tried, the row inserted, and the duty whose expenses are read again.
   */
  datatype AddOutcome = AddOutcome(form: ExpenseForm, uploadPath: Option<string>, inserted: Option<NewExpense>,
                                   requested: Option<string>)

  /**
   * `addExpense`. `parsed` is `parseFloat(amount)`, `now` is `Date.now()`,
   * `upload` and `insert` are what the storage upload and the insert reply.
   * `folder` is the folder part of the receipt path, taken as given.
   */
  function AddExpenseSpec(f: ExpenseForm, parsed: real, folder: string, now: nat,
                          upload: Outcome<string>, insert: Outcome<string>): AddOutcome
  {
    if f.currentDuty.None? then AddOutcome(f.(message := NoDutyMessage), None, None, None)
    else if f.amount == "" || parsed <= 0.0 then AddOutcome(f.(message := InvalidAmountMessage), None, None, None)
    else
      var path := if f.receipt.Some? then Some(ReceiptPath(folder, now, f.receipt.value)) else None;
      if f.receipt.Some? && upload.Fail? then
        AddOutcome(f.(uploading := false, message := "Receipt upload failed: " + upload.error), path, None, None)
      else
        var row := NewExpense(f.currentDuty.value, f.kind, parsed, OrNull(f.description), path);
        match insert
        case Fail(e) => AddOutcome(f.(uploading := false, message := "Error adding expense: " + e), path, Some(row), None)
        case Pass => AddOutcome(f.(amount := "", description := "", receipt := None, uploading := false,
                                   message := AddedMessage), path, Some(row), Some(f.currentDuty.value))
  }

  /** Nothing is uploaded or inserted without a duty row for today. */
  lemma NoDutyNoExpense(f: ExpenseForm, parsed: real, folder: string, now: nat, upload: Outcome<string>, insert: Outcome<string>)
    requires f.currentDuty.None?
    ensures var o := AddExpenseSpec(f, parsed, folder, now, upload, insert);
            o.uploadPath.None? && o.inserted.None? && o.requested.None? && o.form.message == NoDutyMessage
  {
  }

  /**
   * A row is inserted exactly when there is a duty, the amount is non-empty
   * and positive, and any receipt uploaded; it carries the duty, the kind, the
   * amount and the description (empty as null), and its receipt path is the
   * one uploaded to. After a successful insert the expenses of that duty are
   * read again.
   */
  lemma InsertedRow(f: ExpenseForm, parsed: real, folder: string, now: nat, upload: Outcome<string>, insert: Outcome<string>)
    ensures var o := AddExpenseSpec(f, parsed, folder, now, upload, insert);
            && (o.inserted.Some? <==>
                  f.currentDuty.Some? && f.amount != "" && parsed > 0.0 && (f.receipt.None? || upload.Pass?))
            && (o.inserted.Some? ==>
                  o.inserted.value == NewExpense(f.currentDuty.value, f.kind, parsed, OrNull(f.description), o.uploadPath)
                  && o.inserted.value.amount > 0.0)
            && (o.uploadPath.Some? <==> f.currentDuty.Some? && f.amount != "" && parsed > 0.0 && f.receipt.Some?)
            && (o.requested.Some? <==> o.inserted.Some? && insert.Pass?)
            && (o.requested.Some? ==> o.requested == f.currentDuty)
  {
  }

  /**
   * Only a successful insert clears the inputs and reads the list again;
   * every failure keeps them for another try.
   */
  lemma FailureKeepsInputs(f: ExpenseForm, parsed: real, folder: string, now: nat, upload: Outcome<string>, insert: Outcome<string>)
    ensures var o := AddExpenseSpec(f, parsed, folder, now, upload, insert);
            && (o.form.message == AddedMessage <==> o.inserted.Some? && insert.Pass?)
            && (o.form.message == AddedMessage <==> o.requested.Some?)
            && (o.form.message != AddedMessage ==>
                  o.form.amount == f.amount && o.form.description == f.description && o.form.receipt == f.receipt)
            && (o.form.message == AddedMessage ==>
                  o.form.amount == "" && o.form.description == "" && o.form.receipt.None?)
            && o.form.expenses == f.expenses && o.form.currentDuty == f.currentDuty
  {
    var o := AddExpenseSpec(f, parsed, folder, now, upload, insert);
    if upload.Fail? {
      assert ("Receipt upload failed: " + upload.error)[0] != AddedMessage[0];
    }
    if insert.Fail? {
      assert ("Error adding expense: " + insert.error)[1] != AddedMessage[1];
    }
  }

  // ---------------------------------------------------------------------------
  // The page's state, updated in place
  // ---------------------------------------------------------------------------

  class ExpensesPage {
    var currentDuty: Option<string>
    var expenses: seq<Expense>
    var kind: string
    var amount: string
    var description: string
    var receipt: Option<string>
    var uploading: bool
    var message: string

    function Form(): ExpenseForm
      reads this
    {
      ExpenseForm(currentDuty, expenses, kind, amount, description, receipt, uploading, message)
    }

    constructor ()
      ensures Form() == ExpenseForm(None, [], "cng", "", "", None, false, "")
    {
      currentDuty, expenses, kind, amount, description := None, [], "cng", "", "";
      receipt, uploading, message := None, false, "";
    }

    /**
     * `fetchCurrentDuty`: today's duty row (ended or not) becomes the current
     * duty and its expenses are requested; without one the list is emptied.
     * Returns the duty whose expenses are requested.
     */
    method FetchCurrentDuty(todays: Option<string>) returns (requested: Option<string>)
      modifies this
      ensures Form() == (if todays.Some? then old(Form()).(currentDuty := todays)
                         else old(Form()).(currentDuty := None, expenses := []))
      ensures requested == todays
    {
      currentDuty := todays;
      if todays.None? {
        expenses := [];
      }
      requested := todays;
    }

    /** `fetchExpenses` resolving: a `null` reply reads as no expenses. */
    method ReceiveExpenses(data: Option<seq<Expense>>)
      modifies this
      ensures Form() == old(Form()).(expenses := data.GetOr([]))
    {
      expenses := data.GetOr([]);
    }

    method AddExpense(parsed: real, folder: string, now: nat, upload: Outcome<string>, insert: Outcome<string>)
        returns (uploadPath: Option<string>, inserted: Option<NewExpense>, requested: Option<string>)
      modifies this
      ensures AddOutcome(Form(), uploadPath, inserted, requested) == AddExpenseSpec(old(Form()), parsed, folder, now, upload, insert)
    {
      uploadPath, inserted, requested := None, None, None;
      if currentDuty.None? {
        message := NoDutyMessage;
        return;
      }
      if amount == "" || parsed <= 0.0 {
        message := InvalidAmountMessage;
        return;
      }
      uploading := true;
      message := "";
      if receipt.Some? {
        uploadPath := Some(ReceiptPath(folder, now, receipt.value));
        if upload.Fail? {
          message := "Receipt upload failed: " + upload.error;
          uploading := false;
          return;
        }
      }
      inserted := Some(NewExpense(currentDuty.value, kind, parsed, OrNull(description), uploadPath));
      if insert.Fail? {
        message := "Error adding expense: " + insert.error;
      } else {
        message := AddedMessage;
        amount := "";
        description := "";
        receipt := None;
        requested := currentDuty;
      }
      uploading := false;
    }
  }
}
