/** The "Add Expense" dialog: its form state, the ordered validation of a
    submission with one fixed message per failed check, the expense it builds,
    the list of budgets it offers, and the reset after a submission.

    The amount field holds what `parseFloat` made of the typed text: `None`
    stands for `NaN`. The date of today comes in as a parameter. */
module ExpenseForm {
  import opened Seqs
  import opened Strings
  import opened Types
  import opened BudgetContext

  datatype FormData = FormData(
    budgetId: string,
    description: string,
    amount: Option<real>,
    category: string,
    date: string)

  /** The initial values: the budget id given as a property (or none), empty
      text fields and today's date. */
  function InitialForm(budgetIdProp: Option<string>, today: string): (f: FormData)
    ensures f.budgetId == budgetIdProp.GetOr("") && f.description == "" && f.amount == None
    ensures f.category == "" && f.date == today
  {
    FormData(budgetIdProp.GetOr(""), "", None, "", today)
  }

  const SelectBudget := "Please select a budget"
  const EnterDescription := "Please enter a description"
  const EnterValidAmount := "Please enter a valid amount"
  const AddFailed := "Failed to add expense. Please try again."

  datatype Validation = Invalid(message: string) | Valid(expense: ExpenseInput)

  /** `user?.id || "unknown"`. */
  function SubmitterId(user: Option<User>): string {
    if user.Some? && user.value.id != "" then user.value.id else "unknown"
  }

  /** The checks of a submission, in order, and the expense it builds when
      all pass. */
  function Validate(form: FormData, user: Option<User>): (v: Validation)
    ensures form.budgetId == "" ==> v == Invalid(SelectBudget)
    ensures form.budgetId != "" && Trim(form.description) == "" ==> v == Invalid(EnterDescription)
    ensures (form.budgetId != "" && Trim(form.description) != "" &&
             (form.amount.None? || form.amount.value <= 0.0)) ==> v == Invalid(EnterValidAmount)
    ensures v.Valid? <==> form.budgetId != "" && Trim(form.description) != "" &&
                          form.amount.Some? && form.amount.value > 0.0
    ensures v.Valid? ==>
      v.expense.budgetId == form.budgetId && v.expense.description == Trim(form.description) &&
      v.expense.amount == form.amount.value && v.expense.date == form.date &&
      v.expense.submittedBy == SubmitterId(user) &&
      v.expense.category == (if form.category != "" then form.category else "General") &&
      v.expense.receipt == None
  {
    if form.budgetId == "" then Invalid(SelectBudget)
    else if Trim(form.description) == "" then Invalid(EnterDescription)
    else if form.amount.None? || form.amount.value <= 0.0 then Invalid(EnterValidAmount)
    else Valid(ExpenseInput(form.budgetId, Trim(form.description), form.amount.value, form.date,
                            SubmitterId(user), if form.category != "" then form.category else "General", None))
  }

  /** Whatever the form holds, a built expense names a budget, has a positive
      amount, a submitter and a category, and a description that is neither
      empty nor padded with white space. */
  lemma ValidExpenseWellFormed(form: FormData, user: Option<User>)
    requires Validate(form, user).Valid?
    ensures var e := Validate(form, user).expense;
            e.budgetId != "" && e.amount > 0.0 && e.submittedBy != "" && e.category != "" &&
            e.description != "" && !IsSpace(e.description[0]) && !IsSpace(e.description[|e.description| - 1])
  {
    var r := Trim(form.description);
    assert Validate(form, user).expense.description == r && r != [];
    assert !IsSpace(r[0]) && !IsSpace(r[|r| - 1]);
  }

  /** Trimming is what the form does to the description, so a description
      that was already trimmed is kept as typed. */
  lemma TrimIdempotent(s: string)
    ensures Trim(Trim(s)) == Trim(s)
  {
    var r := Trim(s);
    var t := Trim(r);
    if r != [] {
      var i :| TrimmedAt(r, t, i);
      assert !IsSpace(r[0]) && !IsSpace(r[|r| - 1]);
      assert i == 0 && i + |t| == |r|;
      assert r[i..i + |t|] == r;
    }
  }

  predicate IsActive(b: Budget) { b.status == Active }

  /** The budgets the selector offers: exactly the active ones. */
  function ActiveBudgets(bs: seq<Budget>): (r: seq<Budget>)
    ensures forall i :: 0 <= i < |r| ==> r[i].status == Active && r[i] in bs
    ensures forall i :: 0 <= i < |bs| && bs[i].status == Active ==> bs[i] in r
  {
    Filter(bs, IsActive)
  }

  /** The selector keeps the order of the budget list. */
  lemma ActiveBudgetsOrder(s: seq<Budget>, t: seq<Budget>)
    ensures ActiveBudgets(s + t) == ActiveBudgets(s) + ActiveBudgets(t)
  {
    FilterAppend(s, t, IsActive);
  }

  /** An exceeded budget, for instance, is never offered. */
  lemma ExceededNotOffered(bs: seq<Budget>, b: Budget)
    requires b.status != Active
    ensures b !in ActiveBudgets(bs)
  {
  }

  /** The dialog's state. */
  class ExpenseDialog {
    const budgetIdProp: Option<string>
    var open: bool
    var loading: bool
    var error: string
    var formData: FormData

    constructor (budgetIdProp: Option<string>, today: string)
      ensures this.budgetIdProp == budgetIdProp
      ensures !open && !loading && error == "" && formData == InitialForm(budgetIdProp, today)
    {
      this.budgetIdProp := budgetIdProp;
      open, loading, error := false, false, "";
      formData := InitialForm(budgetIdProp, today);
    }

    /** `onOpenChange` and the Cancel button. */
    method SetOpen(value: bool)
      modifies this
      ensures open == value && loading == old(loading) && error == old(error) && formData == old(formData)
    {
      open := value;
    }

    /** An edit of one or more fields. */
    method SetFormData(data: FormData)
      modifies this
      ensures formData == data && open == old(open) && loading == old(loading) && error == old(error)
    {
      formData := data;
    }

    /** `handleSubmit` as written. The store's context has no `reloadData`, so
        the `await reloadData()` after the expense was added throws, and the
        `catch` sets the failure message: the expense is recorded, the form
        reset and the dialog closed, yet the user is told it failed and
        `onSuccess` is never called. The result says whether `onSuccess` ran. */
    method SubmitAsWritten(store: BudgetStore, user: Option<User>, today: string,
                           expenseId: string, anomalyId: string, notificationId: string, now: string)
      returns (successCalled: bool)
      modifies this, store
      ensures !successCalled
      ensures var v := Validate(old(formData), user);
        v.Invalid? ==>
          error == v.message && formData == old(formData) && open == old(open) && loading == old(loading) &&
          store.expenses == old(store.expenses) && store.budgets == old(store.budgets) &&
          store.anomalies == old(store.anomalies) && store.notifications == old(store.notifications)
      ensures var v := Validate(old(formData), user);
        v.Valid? ==>
          error == AddFailed && formData == InitialForm(budgetIdProp, today) && !open && !loading
      ensures var v := Validate(old(formData), user);
        v.Valid? ==>
          var e := v.expense;
          store.expenses == old(store.expenses) + [NewExpense(e, expenseId)] &&
          store.budgets == ChargeAll(old(store.budgets), e.budgetId, e.amount) &&
          store.anomalies == old(store.anomalies) + Detected(old(store.budgets), e.budgetId, e.amount, anomalyId, today) &&
          store.notifications == Alerts(old(store.budgets), e.budgetId, e.amount, notificationId, now) + old(store.notifications)
      ensures store.feedbackReports == old(store.feedbackReports)
    {
      error := "";
      successCalled := false;
      var v := Validate(formData, user);
      if v.Invalid? {
        error := v.message;
        return;
      }
      loading := true;
      store.AddExpense(v.expense, expenseId, anomalyId, notificationId, today, now);
      formData := InitialForm(budgetIdProp, today);
      open := false;
      // `reloadData` is undefined here: calling it throws, and the handler
      // continues in its `catch` and `finally` blocks.
      error := AddFailed;
      loading := false;
    }

    /** `handleSubmit` without the call to the missing `reloadData`: a
        successful submission leaves no error and calls `onSuccess`; a failed
        validation adds nothing and leaves the form and the dialog as they
        were. */
    method Submit(store: BudgetStore, user: Option<User>, today: string,
                  expenseId: string, anomalyId: string, notificationId: string, now: string)
      returns (successCalled: bool)
      modifies this, store
      ensures successCalled <==> Validate(old(formData), user).Valid?
      ensures var v := Validate(old(formData), user);
        v.Invalid? ==>
          error == v.message && formData == old(formData) && open == old(open) && loading == old(loading) &&
          store.expenses == old(store.expenses) && store.budgets == old(store.budgets) &&
          store.anomalies == old(store.anomalies) && store.notifications == old(store.notifications)
      ensures var v := Validate(old(formData), user);
        v.Valid? ==>
          error == "" && formData == InitialForm(budgetIdProp, today) && !open && !loading
      ensures var v := Validate(old(formData), user);
        v.Valid? ==>
          var e := v.expense;
          store.expenses == old(store.expenses) + [NewExpense(e, expenseId)] &&
          store.budgets == ChargeAll(old(store.budgets), e.budgetId, e.amount) &&
          store.anomalies == old(store.anomalies) + Detected(old(store.budgets), e.budgetId, e.amount, anomalyId, today) &&
          store.notifications == Alerts(old(store.budgets), e.budgetId, e.amount, notificationId, now) + old(store.notifications)
      ensures store.feedbackReports == old(store.feedbackReports)
    {
      error := "";
      successCalled := false;
      var v := Validate(formData, user);
      if v.Invalid? {
        error := v.message;
        return;
      }
      loading := true;
      store.AddExpense(v.expense, expenseId, anomalyId, notificationId, today, now);
      formData := InitialForm(budgetIdProp, today);
      open := false;
      successCalled := true;
      loading := false;
    }
  }

  /** A form that passes every check, an instance of the method below. */
  lemma PizzaFormValid()
    ensures Validate(FormData("b1", "Pizza", Some(50.0), "", "2024-06-01"), None) ==
            Valid(ExpenseInput("b1", "Pizza", 50.0, "2024-06-01", "unknown", "General", None))
  {
    assert !IsSpace('P') && !IsSpace('a');
    assert TrimStart("Pizza") == "Pizza";
    assert TrimEnd("Pizza") == "Pizza";
  }

  /** A valid form against a store holding just the budget it names (the form
      above is one): as written, the expense is recorded and the budget
      charged, and still the dialog reports a failure and does not call
      `onSuccess`. */
  method SubmitReportsFailureAfterAdding(b: Budget, form: FormData, user: Option<User>)
    returns (dialog: ExpenseDialog, store: BudgetStore, successCalled: bool)
    requires Validate(form, user).Valid? && form.budgetId == b.id
    ensures |store.expenses| == 1 && store.expenses[0].amount == form.amount.value
    ensures |store.budgets| == 1 && store.budgets[0].spentAmount == b.spentAmount + form.amount.value
    ensures dialog.error == AddFailed && !dialog.open && !successCalled
  {
    store := new BudgetStore([b], [], [], [], []);
    dialog := new ExpenseDialog(Some(b.id), form.date);
    dialog.SetOpen(true);
    dialog.SetFormData(form);
    successCalled := dialog.SubmitAsWritten(store, user, form.date, "e1", "a1", "n1", form.date);
    assert store.budgets[0] == ChargeIfMatch(b, b.id, form.amount.value);
  }
}
