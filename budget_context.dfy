/** The in-memory domain store (`BudgetProvider`): five lists of records, the
    mutators that append, prepend or replace records by id, budget overrun
    detection inside `addExpense`, tracking-code generation for feedback
    reports, and the aggregate queries.

    Ids, dates and the year come from `Date.now()`, `new Date()` and
    `getFullYear()` in the application; here they are parameters. */
module BudgetContext {
  import opened Seqs
  import opened Strings
  import opened Types

  // ---------------------------------------------------------------------
  // Budgets: add and update

  /** The caller's part of a new budget: everything but id, creation date,
      spent amount and status. */
  datatype BudgetInput = BudgetInput(
    eventName: string,
    team: string,
    allocatedAmount: real,
    startDate: string,
    endDate: string,
    category: string,
    description: string)

  /** The budget `addBudget` appends: nothing spent yet, status active, and
      every field the caller gave. */
  function NewBudget(input: BudgetInput, id: string, createdAt: string): (b: Budget)
    ensures b.id == id && b.createdAt == createdAt
    ensures b.spentAmount == 0.0 && b.status == Active
    ensures b.eventName == input.eventName && b.team == input.team
    ensures b.allocatedAmount == input.allocatedAmount
    ensures b.startDate == input.startDate && b.endDate == input.endDate
    ensures b.category == input.category && b.description == input.description
  {
    Budget(id, input.eventName, input.team, input.allocatedAmount, 0.0,
           input.startDate, input.endDate, Active, input.category, input.description, createdAt)
  }

  /** `Partial<Budget>`: each present property overrides the budget's own. */
  datatype BudgetPatch = BudgetPatch(
    id: Option<string>,
    eventName: Option<string>,
    team: Option<string>,
    allocatedAmount: Option<real>,
    spentAmount: Option<real>,
    startDate: Option<string>,
    endDate: Option<string>,
    status: Option<BudgetStatus>,
    category: Option<string>,
    description: Option<string>,
    createdAt: Option<string>)

  /** `{ ...budget, ...updates }`. */
  function PatchBudget(b: Budget, u: BudgetPatch): Budget {
    Budget(u.id.GetOr(b.id), u.eventName.GetOr(b.eventName), u.team.GetOr(b.team),
           u.allocatedAmount.GetOr(b.allocatedAmount), u.spentAmount.GetOr(b.spentAmount),
           u.startDate.GetOr(b.startDate), u.endDate.GetOr(b.endDate), u.status.GetOr(b.status),
           u.category.GetOr(b.category), u.description.GetOr(b.description),
           u.createdAt.GetOr(b.createdAt))
  }

  /** `updateBudget`: every budget with the id is patched, the others are kept. */
  function UpdateBudgets(bs: seq<Budget>, id: string, u: BudgetPatch): seq<Budget> {
    seq(|bs|, i requires 0 <= i < |bs| => if bs[i].id == id then PatchBudget(bs[i], u) else bs[i])
  }

  /** Updating a budget twice with the same patch is the same as once, even
      when the patch changes the id. */
  lemma UpdateBudgetsIdempotent(bs: seq<Budget>, id: string, u: BudgetPatch)
    ensures UpdateBudgets(UpdateBudgets(bs, id, u), id, u) == UpdateBudgets(bs, id, u)
  {
    var once := UpdateBudgets(bs, id, u);
    forall i | 0 <= i < |bs|
      ensures UpdateBudgets(once, id, u)[i] == once[i]
    {
      if bs[i].id == id {
        assert PatchBudget(once[i], u) == once[i];
      }
    }
  }

  /** An update whose id matches no budget changes nothing, and a budget whose
      id differs is never touched. */
  lemma UpdateBudgetsFrame(bs: seq<Budget>, id: string, u: BudgetPatch)
    ensures |UpdateBudgets(bs, id, u)| == |bs|
    ensures forall i :: 0 <= i < |bs| && bs[i].id != id ==> UpdateBudgets(bs, id, u)[i] == bs[i]
    ensures (forall i :: 0 <= i < |bs| ==> bs[i].id != id) ==> UpdateBudgets(bs, id, u) == bs
  {
  }

  // ---------------------------------------------------------------------
  // Expenses and overrun detection

  /** `Omit<Expense, "id">`. */
  datatype ExpenseInput = ExpenseInput(
    budgetId: string,
    description: string,
    amount: real,
    date: string,
    submittedBy: string,
    category: string,
    receipt: Option<string>)

  function NewExpense(input: ExpenseInput, id: string): (e: Expense)
    ensures e.id == id && e.budgetId == input.budgetId && e.amount == input.amount
    ensures e.description == input.description && e.date == input.date
    ensures e.submittedBy == input.submittedBy && e.category == input.category
    ensures e.receipt == input.receipt
  {
    Expense(id, input.budgetId, input.description, input.amount, input.date,
            input.submittedBy, input.category, input.receipt)
  }

  /** The budget after `amount` has been spent on it: the spent total grows by
      `amount`, and the status becomes exceeded once spending passes the
      allocation (otherwise it is kept). */
  function Charge(b: Budget, amount: real): Budget {
    var newSpent := b.spentAmount + amount;
    b.(spentAmount := newSpent, status := if newSpent > b.allocatedAmount then Exceeded else b.status)
  }

  /** The expense takes the budget over its allocation for the first time. */
  predicate FirstCrossing(b: Budget, amount: real) {
    b.spentAmount + amount > b.allocatedAmount && b.status != Exceeded
  }

  /** `(exceeded / allocation) * 100` in floating point, for a positive
      `exceeded`: a zero allocation gives `Infinity`. */
  function PercentOver(exceeded: real, allocation: real): (p: Percentage)
    requires exceeded > 0.0
    ensures allocation == 0.0 <==> p == PositiveInfinity
    ensures allocation != 0.0 ==> p.value * allocation == exceeded * 100.0
  {
    if allocation == 0.0 then PositiveInfinity else Finite(exceeded / allocation * 100.0)
  }

  /** The anomaly recorded when `b` first crosses its allocation. */
  function AnomalyFor(b: Budget, amount: real, id: string, detectedAt: string): (a: Anomaly)
    requires FirstCrossing(b, amount)
    ensures a.budgetId == b.id && a.status == Pending && a.reason == None
    ensures a.eventName == b.eventName && a.team == b.team && a.allocatedAmount == b.allocatedAmount
    ensures a.exceededAmount == b.spentAmount + amount - b.allocatedAmount && a.exceededAmount > 0.0
    ensures a.percentageOver == PercentOver(a.exceededAmount, b.allocatedAmount)
  {
    var newSpent := b.spentAmount + amount;
    Anomaly(id, b.id, b.eventName, b.team, b.allocatedAmount, newSpent - b.allocatedAmount,
            PercentOver(newSpent - b.allocatedAmount, b.allocatedAmount), detectedAt, Pending, None)
  }

  /** The unread alert that accompanies the anomaly. */
  function AlertFor(b: Budget, id: string, timestamp: string): (n: Notification)
    ensures n.kind == Alert && !n.read && n.budgetId == Some(b.id)
  {
    Notification(id, Alert, "Budget Exceeded", b.eventName + " has exceeded its budget",
                 timestamp, false, Some(b.id))
  }

  /** The budget list after `addExpense`: every budget with the expense's
      budget id is charged, the others are kept. */
  function ChargeAll(bs: seq<Budget>, budgetId: string, amount: real): seq<Budget> {
    seq(|bs|, i requires 0 <= i < |bs| => ChargeIfMatch(bs[i], budgetId, amount))
  }

  /** One step of the `map` inside `addExpense`. */
  function ChargeIfMatch(b: Budget, budgetId: string, amount: real): Budget {
    if b.id == budgetId then Charge(b, amount) else b
  }

  lemma ChargeAllSnoc(bs: seq<Budget>, b: Budget, budgetId: string, amount: real)
    ensures ChargeAll(bs + [b], budgetId, amount) == ChargeAll(bs, budgetId, amount) + [ChargeIfMatch(b, budgetId, amount)]
  {
  }

  /** The anomalies `addExpense` appends, one per matching budget that crosses
      for the first time, in budget order. */
  function Detected(bs: seq<Budget>, budgetId: string, amount: real, id: string, detectedAt: string): seq<Anomaly> {
    if bs == [] then []
    else
      var b := bs[|bs| - 1];
      Detected(bs[..|bs| - 1], budgetId, amount, id, detectedAt) +
        (if b.id == budgetId && FirstCrossing(b, amount) then [AnomalyFor(b, amount, id, detectedAt)] else [])
  }

  /** The alerts `addExpense` prepends: each crossing puts its alert in front,
      so the last crossing budget's alert comes first. */
  function Alerts(bs: seq<Budget>, budgetId: string, amount: real, id: string, timestamp: string): seq<Notification> {
    if bs == [] then []
    else
      var b := bs[|bs| - 1];
      (if b.id == budgetId && FirstCrossing(b, amount) then [AlertFor(b, id, timestamp)] else []) +
        Alerts(bs[..|bs| - 1], budgetId, amount, id, timestamp)
  }

  lemma DetectedSnoc(bs: seq<Budget>, b: Budget, budgetId: string, amount: real, id: string, detectedAt: string)
    ensures Detected(bs + [b], budgetId, amount, id, detectedAt) == Detected(bs, budgetId, amount, id, detectedAt) +
              (if b.id == budgetId && FirstCrossing(b, amount) then [AnomalyFor(b, amount, id, detectedAt)] else [])
  {
    assert (bs + [b])[..|bs|] == bs;
  }

  lemma AlertsSnoc(bs: seq<Budget>, b: Budget, budgetId: string, amount: real, id: string, timestamp: string)
    ensures Alerts(bs + [b], budgetId, amount, id, timestamp) ==
              (if b.id == budgetId && FirstCrossing(b, amount) then [AlertFor(b, id, timestamp)] else []) +
              Alerts(bs, budgetId, amount, id, timestamp)
  {
    assert (bs + [b])[..|bs|] == bs;
  }

  /** One step of the walk in `addExpense`: if the lists built so far are
      the results for the first `i` budgets, then adding the `i`-th budget's
      share gives the results for the first `i + 1`. */
  lemma ScanStep(bs: seq<Budget>, i: nat, budgetId: string, amount: real, aid: string, nid: string, day: string, ts: string,
                 next: seq<Budget>, found: seq<Anomaly>, alerts: seq<Notification>,
                 found0: seq<Anomaly>, alerts0: seq<Notification>)
    requires i < |bs|
    requires next == ChargeAll(bs[..i], budgetId, amount)
    requires found == found0 + Detected(bs[..i], budgetId, amount, aid, day)
    requires alerts == Alerts(bs[..i], budgetId, amount, nid, ts) + alerts0
    ensures next + [ChargeIfMatch(bs[i], budgetId, amount)] == ChargeAll(bs[..i + 1], budgetId, amount)
    ensures bs[i].id == budgetId && FirstCrossing(bs[i], amount) ==>
      found + [AnomalyFor(bs[i], amount, aid, day)] == found0 + Detected(bs[..i + 1], budgetId, amount, aid, day) &&
      [AlertFor(bs[i], nid, ts)] + alerts == Alerts(bs[..i + 1], budgetId, amount, nid, ts) + alerts0
    ensures !(bs[i].id == budgetId && FirstCrossing(bs[i], amount)) ==>
      found == found0 + Detected(bs[..i + 1], budgetId, amount, aid, day) &&
      alerts == Alerts(bs[..i + 1], budgetId, amount, nid, ts) + alerts0
  {
    assert bs[..i + 1] == bs[..i] + [bs[i]];
    ChargeAllSnoc(bs[..i], bs[i], budgetId, amount);
    DetectedSnoc(bs[..i], bs[i], budgetId, amount, aid, day);
    AlertsSnoc(bs[..i], bs[i], budgetId, amount, nid, ts);
  }

  /** The test "this budget carries the id", as a function value. */
  function HasId(budgetId: string): Budget -> bool {
    (b: Budget) => b.id == budgetId
  }

  function MatchCount(bs: seq<Budget>, budgetId: string): nat {
    Count(bs, HasId(budgetId))
  }

  function Allocated(b: Budget): real { b.allocatedAmount }

  function Spent(b: Budget): real { b.spentAmount }

  function TotalAllocated(bs: seq<Budget>): real {
    Sum(bs, Allocated)
  }

  function TotalSpent(bs: seq<Budget>): real {
    Sum(bs, Spent)
  }

  /** One more budget in the list counts once more when it carries the id. */
  lemma MatchCountSnoc(bs: seq<Budget>, b: Budget, budgetId: string)
    ensures MatchCount(bs + [b], budgetId) == MatchCount(bs, budgetId) + (if b.id == budgetId then 1 else 0)
  {
    FilterAppend(bs, [b], HasId(budgetId));
    assert Filter([b], HasId(budgetId)) == if b.id == budgetId then [b] else [];
  }

  /** `amount` added up `n` times. */
  function Times(amount: real, n: nat): real {
    if n == 0 then 0.0 else Times(amount, n - 1) + amount
  }

  lemma {:induction false} TimesIsProduct(amount: real, n: nat)
    ensures Times(amount, n) == amount * n as real
  {
    if n > 0 {
      TimesIsProduct(amount, n - 1);
    }
  }

  /** Spending `amount` raises the total spent by `amount` once for every
      budget carrying the id. */
  lemma {:induction false} ChargeAllSpent(bs: seq<Budget>, budgetId: string, amount: real)
    ensures TotalSpent(ChargeAll(bs, budgetId, amount)) == TotalSpent(bs) + Times(amount, MatchCount(bs, budgetId))
  {
    if bs != [] {
      var n := |bs|;
      var init, last := bs[..n - 1], bs[n - 1];
      var before := ChargeAll(init, budgetId, amount);
      var after := ChargeAll(bs, budgetId, amount);
      assert bs == init + [last];
      ChargeAllSnoc(init, last, budgetId, amount);
      MatchCountSnoc(init, last, budgetId);
      ChargeAllSpent(init, budgetId, amount);
      assert after[..n - 1] == before;
    }
  }

  /** The same, as a product. */
  lemma ChargeAllSpentProduct(bs: seq<Budget>, budgetId: string, amount: real)
    ensures TotalSpent(ChargeAll(bs, budgetId, amount)) == TotalSpent(bs) + amount * MatchCount(bs, budgetId) as real
  {
    ChargeAllSpent(bs, budgetId, amount);
    TimesIsProduct(amount, MatchCount(bs, budgetId));
  }

  /** Expenses never change an allocation. */
  lemma {:induction false} ChargeAllAllocated(bs: seq<Budget>, budgetId: string, amount: real)
    ensures TotalAllocated(ChargeAll(bs, budgetId, amount)) == TotalAllocated(bs)
  {
    if bs != [] {
      var n := |bs|;
      var init := bs[..n - 1];
      var after := ChargeAll(bs, budgetId, amount);
      assert after[..n - 1] == ChargeAll(init, budgetId, amount);
      ChargeAllAllocated(init, budgetId, amount);
    }
  }

  /** So with exactly one budget carrying the id, the total spent rises by
      exactly the expense's amount. */
  lemma TotalSpentRisesByAmount(bs: seq<Budget>, budgetId: string, amount: real)
    requires MatchCount(bs, budgetId) == 1
    ensures TotalSpent(ChargeAll(bs, budgetId, amount)) == TotalSpent(bs) + amount
  {
    ChargeAllSpent(bs, budgetId, amount);
  }

  /** An expense for a budget id that no budget has changes no budget and
      raises no anomaly or alert. */
  lemma {:induction false} ChargeAllNoMatch(bs: seq<Budget>, budgetId: string, amount: real, aid: string, nid: string, day: string, ts: string)
    requires forall i :: 0 <= i < |bs| ==> bs[i].id != budgetId
    ensures ChargeAll(bs, budgetId, amount) == bs
    ensures Detected(bs, budgetId, amount, aid, day) == []
    ensures Alerts(bs, budgetId, amount, nid, ts) == []
  {
    if bs != [] {
      ChargeAllNoMatch(bs[..|bs| - 1], budgetId, amount, aid, nid, day, ts);
    }
  }

  /** The new status is exceeded exactly when spending passes the allocation,
      and otherwise the old one; an exceeded budget stays exceeded. */
  lemma ChargeStatus(b: Budget, amount: real)
    ensures Charge(b, amount).status == Exceeded <==> b.spentAmount + amount > b.allocatedAmount || b.status == Exceeded
    ensures b.spentAmount + amount <= b.allocatedAmount ==> Charge(b, amount).status == b.status
    ensures Charge(b, amount).spentAmount == b.spentAmount + amount
  {
  }

  /** The data-model invariant "exceeded exactly when overspent". */
  predicate Consistent(b: Budget) {
    b.status == Exceeded <==> b.spentAmount > b.allocatedAmount
  }

  /** A non-negative expense keeps every budget consistent. (A negative one
      can bring an exceeded budget back under its allocation without
      clearing the status.) */
  lemma ChargeAllKeepsConsistent(bs: seq<Budget>, budgetId: string, amount: real)
    requires amount >= 0.0
    requires forall i :: 0 <= i < |bs| ==> Consistent(bs[i])
    ensures forall i :: 0 <= i < |ChargeAll(bs, budgetId, amount)| ==> Consistent(ChargeAll(bs, budgetId, amount)[i])
  {
  }

  lemma NegativeExpenseBreaksConsistency()
    ensures var b := Budget("1", "Offsite", "Ops", 100.0, 150.0, "", "", Exceeded, "", "", "");
            Consistent(b) && !Consistent(Charge(b, -60.0))
  {
  }

  /** When exactly one budget carries the id, `addExpense` raises an anomaly
      and an alert exactly when that budget crosses for the first time. */
  lemma {:induction false} DetectedUnique(bs: seq<Budget>, j: nat, amount: real, aid: string, nid: string, day: string, ts: string)
    requires j < |bs|
    requires forall k :: 0 <= k < |bs| && k != j ==> bs[k].id != bs[j].id
    ensures Detected(bs, bs[j].id, amount, aid, day) ==
            if FirstCrossing(bs[j], amount) then [AnomalyFor(bs[j], amount, aid, day)] else []
    ensures Alerts(bs, bs[j].id, amount, nid, ts) ==
            if FirstCrossing(bs[j], amount) then [AlertFor(bs[j], nid, ts)] else []
  {
    var n := |bs|;
    var init := bs[..n - 1];
    if j == n - 1 {
      ChargeAllNoMatch(init, bs[j].id, amount, aid, nid, day, ts);
    } else {
      assert init[j] == bs[j] && bs[n - 1].id != bs[j].id;
      assert forall k :: 0 <= k < |init| && k != j ==> init[k].id != init[j].id;
      DetectedUnique(init, j, amount, aid, nid, day, ts);
      assert Detected(bs, bs[j].id, amount, aid, day) == Detected(init, bs[j].id, amount, aid, day) + [];
      assert Alerts(bs, bs[j].id, amount, nid, ts) == [] + Alerts(init, bs[j].id, amount, nid, ts);
    }
  }

  // A budget of 1000 with nothing spent receives an expense of 1200.
  lemma OverrunScenario()
    ensures var b := Budget("b1", "Summit", "Sales", 1000.0, 0.0, "", "", Active, "", "", "");
            var a := AnomalyFor(b, 1200.0, "a1", "2024-05-01");
            Charge(b, 1200.0).spentAmount == 1200.0 && Charge(b, 1200.0).status == Exceeded &&
            a.exceededAmount == 200.0 && a.percentageOver == Finite(20.0)
  {
  }

  /** Two expenses of 600 against a budget of 1000, one after the other: the
      second crosses, and the pair raises exactly one anomaly. */
  lemma TwoExpensesOneAnomaly(b: Budget, aid: string, day: string)
    requires b.allocatedAmount == 1000.0 && b.spentAmount == 0.0 && b.status == Active
    ensures Detected([b], b.id, 600.0, aid, day) == []
    ensures |Detected(ChargeAll([b], b.id, 600.0), b.id, 600.0, aid, day)| == 1
    ensures ChargeAll(ChargeAll([b], b.id, 600.0), b.id, 600.0)[0].spentAmount == 1200.0
    ensures ChargeAll(ChargeAll([b], b.id, 600.0), b.id, 600.0)[0].status == Exceeded
  {
    var once := ChargeAll([b], b.id, 600.0);
    assert once == [Charge(b, 600.0)];
    assert [b][..0] == [] && once[..0] == [];
  }

  predicate UniqueIds(bs: seq<Budget>) {
    forall i, j :: 0 <= i < j < |bs| ==> bs[i].id != bs[j].id
  }

  predicate HasAnomaly(anomalies: seq<Anomaly>, budgetId: string) {
    exists k :: 0 <= k < |anomalies| && anomalies[k].budgetId == budgetId
  }

  /** A budget is exceeded exactly when some anomaly refers to it. */
  predicate ExceededIffAnomaly(bs: seq<Budget>, anomalies: seq<Anomaly>) {
    forall i :: 0 <= i < |bs| ==> (bs[i].status == Exceeded <==> HasAnomaly(anomalies, bs[i].id))
  }

  lemma HasAnomalyAppend(s: seq<Anomaly>, t: seq<Anomaly>, id: string)
    ensures HasAnomaly(s + t, id) <==> HasAnomaly(s, id) || HasAnomaly(t, id)
  {
    if HasAnomaly(s, id) {
      var k :| 0 <= k < |s| && s[k].budgetId == id;
      assert (s + t)[k] == s[k];
    }
    if HasAnomaly(t, id) {
      var k :| 0 <= k < |t| && t[k].budgetId == id;
      assert (s + t)[|s| + k] == t[k];
    }
    if HasAnomaly(s + t, id) {
      var k :| 0 <= k < |s + t| && (s + t)[k].budgetId == id;
      if k >= |s| { assert t[k - |s|] == (s + t)[k]; } else { assert s[k] == (s + t)[k]; }
    }
  }

  /** The new anomalies refer exactly to the matching budgets that cross. */
  lemma {:induction false} DetectedRefersTo(bs: seq<Budget>, budgetId: string, amount: real, aid: string, day: string, id: string)
    ensures HasAnomaly(Detected(bs, budgetId, amount, aid, day), id) <==>
            exists k :: 0 <= k < |bs| && bs[k].id == id && bs[k].id == budgetId && FirstCrossing(bs[k], amount)
  {
    if bs != [] {
      var n := |bs|;
      var init := bs[..n - 1];
      var b := bs[n - 1];
      var piece := if b.id == budgetId && FirstCrossing(b, amount) then [AnomalyFor(b, amount, aid, day)] else [];
      DetectedRefersTo(init, budgetId, amount, aid, day, id);
      HasAnomalyAppend(Detected(init, budgetId, amount, aid, day), piece, id);
      if exists k :: 0 <= k < n && bs[k].id == id && bs[k].id == budgetId && FirstCrossing(bs[k], amount) {
        var k :| 0 <= k < n && bs[k].id == id && bs[k].id == budgetId && FirstCrossing(bs[k], amount);
        if k < n - 1 {
          assert init[k] == bs[k];
        } else {
          assert piece[0].budgetId == id;
        }
      }
      if HasAnomaly(piece, id) {
        assert b.id == id;
      }
      if exists k :: 0 <= k < n - 1 && init[k].id == id && init[k].id == budgetId && FirstCrossing(init[k], amount) {
        var k :| 0 <= k < n - 1 && init[k].id == id && init[k].id == budgetId && FirstCrossing(init[k], amount);
        assert bs[k] == init[k];
      }
    }
  }

  /** With distinct budget ids, `addExpense` keeps "exceeded exactly when an
      anomaly refers to the budget": the only budgets to become exceeded are
      the ones that cross for the first time, and those are the ones that get
      an anomaly. */
  lemma ChargeAllKeepsExceededIffAnomaly(bs: seq<Budget>, anomalies: seq<Anomaly>, budgetId: string, amount: real, aid: string, day: string)
    requires UniqueIds(bs)
    requires ExceededIffAnomaly(bs, anomalies)
    ensures ExceededIffAnomaly(ChargeAll(bs, budgetId, amount), anomalies + Detected(bs, budgetId, amount, aid, day))
  {
    var after := ChargeAll(bs, budgetId, amount);
    var added := Detected(bs, budgetId, amount, aid, day);
    forall i | 0 <= i < |after|
      ensures after[i].status == Exceeded <==> HasAnomaly(anomalies + added, after[i].id)
    {
      var id := bs[i].id;
      HasAnomalyAppend(anomalies, added, id);
      DetectedRefersTo(bs, budgetId, amount, aid, day, id);
      assert HasAnomaly(added, id) <==> id == budgetId && FirstCrossing(bs[i], amount) by {
        if HasAnomaly(added, id) {
          var k :| 0 <= k < |bs| && bs[k].id == id && bs[k].id == budgetId && FirstCrossing(bs[k], amount);
          assert k == i;
        }
      }
    }
  }

  // ---------------------------------------------------------------------
  // Anomalies

  /** `updateAnomalyStatus`: any requested status replaces the status of every
      anomaly with the id; there is no check of the transition. */
  function SetAnomalyStatus(anomalies: seq<Anomaly>, id: string, status: AnomalyStatus): (r: seq<Anomaly>)
    ensures |r| == |anomalies|
    ensures forall i :: 0 <= i < |r| ==> r[i].status == (if anomalies[i].id == id then status else anomalies[i].status)
    ensures forall i :: 0 <= i < |r| ==> r[i] == anomalies[i].(status := r[i].status)
  {
    seq(|anomalies|, i requires 0 <= i < |anomalies| =>
      if anomalies[i].id == id then anomalies[i].(status := status) else anomalies[i])
  }

  /** The store accepts even a move back to pending from a decided anomaly. */
  lemma StoreAcceptsAnyTransition()
    ensures var a := Anomaly("a1", "b1", "Summit", "Sales", 1000.0, 200.0, Finite(20.0), "", Approved, None);
            SetAnomalyStatus([a], "a1", Pending) == [a.(status := Pending)]
  {
  }

  /** Status updates leave budget ids, and hence "some anomaly refers to the
      budget", untouched. */
  lemma SetAnomalyStatusKeepsReferences(anomalies: seq<Anomaly>, id: string, status: AnomalyStatus, budgetId: string)
    ensures HasAnomaly(SetAnomalyStatus(anomalies, id, status), budgetId) <==> HasAnomaly(anomalies, budgetId)
  {
    var r := SetAnomalyStatus(anomalies, id, status);
    if HasAnomaly(anomalies, budgetId) {
      var k :| 0 <= k < |anomalies| && anomalies[k].budgetId == budgetId;
      assert r[k].budgetId == budgetId;
    }
  }

  predicate IsPending(a: Anomaly) { a.status == Pending }

  function PendingCount(anomalies: seq<Anomaly>): nat {
    Count(anomalies, IsPending)
  }

  // ---------------------------------------------------------------------
  // Notifications

  /** `markNotificationRead`: the notifications with the id become read. */
  function MarkRead(ns: seq<Notification>, id: string): seq<Notification> {
    seq(|ns|, i requires 0 <= i < |ns| => if ns[i].id == id then ns[i].(read := true) else ns[i])
  }

  /** `markAllNotificationsRead`. */
  function MarkAllRead(ns: seq<Notification>): seq<Notification> {
    seq(|ns|, i requires 0 <= i < |ns| => ns[i].(read := true))
  }

  predicate IsUnread(n: Notification) { !n.read }

  function UnreadCount(ns: seq<Notification>): nat {
    Count(ns, IsUnread)
  }

  /** Marking one notification read flips only the read flag of the
      notifications with that id, keeps every other field and the length,
      and doing it again changes nothing. */
  lemma MarkReadEffect(ns: seq<Notification>, id: string)
    ensures |MarkRead(ns, id)| == |ns|
    ensures forall i :: 0 <= i < |ns| ==>
      MarkRead(ns, id)[i] == ns[i].(read := ns[i].read || ns[i].id == id)
    ensures MarkRead(MarkRead(ns, id), id) == MarkRead(ns, id)
  {
  }

  /** Marking one read never adds an unread notification. */
  lemma {:induction false} MarkReadUnreadCount(ns: seq<Notification>, id: string)
    ensures UnreadCount(MarkRead(ns, id)) <= UnreadCount(ns)
  {
    if ns != [] {
      assert MarkRead(ns, id)[1..] == MarkRead(ns[1..], id);
      MarkReadUnreadCount(ns[1..], id);
    }
  }

  /** After marking all read, every notification is read, nothing else has
      changed, and the unread count is zero; doing it again changes nothing. */
  lemma MarkAllReadEffect(ns: seq<Notification>)
    ensures |MarkAllRead(ns)| == |ns|
    ensures forall i :: 0 <= i < |ns| ==> MarkAllRead(ns)[i] == ns[i].(read := true)
    ensures UnreadCount(MarkAllRead(ns)) == 0
    ensures MarkAllRead(MarkAllRead(ns)) == MarkAllRead(ns)
  {
    FilterNone(MarkAllRead(ns), IsUnread);
  }

  /** Three unread and two read notifications. */
  lemma MarkAllReadScenario(a: Notification, b: Notification, c: Notification, d: Notification, e: Notification)
    requires !a.read && !b.read && !c.read && d.read && e.read
    ensures UnreadCount([a, b, c, d, e]) == 3
    ensures UnreadCount(MarkAllRead([a, b, c, d, e])) == 0
  {
    var s := [a, b, c, d, e];
    assert s == [a] + [b] + [c] + [d, e];
    FilterAppend([a] + [b] + [c], [d, e], IsUnread);
    FilterAppend([a] + [b], [c], IsUnread);
    FilterAppend([a], [b], IsUnread);
    FilterNone([d, e], IsUnread);
    MarkAllReadEffect(s);
  }

  // ---------------------------------------------------------------------
  // Feedback reports

  /** `Omit<FeedbackReport, "id" | "submittedAt" | "status" | "trackingCode">`. */
  datatype FeedbackInput = FeedbackInput(
    category: FeedbackCategory,
    department: string,
    severity: Severity,
    subject: string,
    description: string,
    incidentDate: Option<string>,
    involvedParties: Option<string>,
    hrNotes: Option<string>,
    assignedTo: Option<string>,
    isAnonymous: bool)

  /** `FB-<year>-<n>`, where `n` is the report count plus one written with at
      least three digits. */
  function TrackingCode(year: nat, reportCount: nat): string {
    "FB-" + NatToString(year) + ['-'] + SequenceNumber(reportCount)
  }

  /** `String(reportCount + 1).padStart(3, "0")`. */
  function SequenceNumber(reportCount: nat): string {
    PadStart(NatToString(reportCount + 1), 3, '0')
  }

  /** The sequence number has at least three digits and reads back as the
      report count plus one. */
  lemma SequenceNumberValue(reportCount: nat)
    ensures var p := SequenceNumber(reportCount);
            |p| >= 3 && AllDigits(p) && DigitsValue(p) == reportCount + 1
  {
    var d := NatToString(reportCount + 1);
    var p := SequenceNumber(reportCount);
    NatToStringRoundTrip(reportCount + 1);
    assert p == p[..|p| - |d|] + d;
    LeadingZeros(p[..|p| - |d|], d);
  }

  /** A tracking code is "FB-", the year, "-" and the sequence number, each
      recoverable from its position. */
  lemma TrackingCodeFormat(year: nat, reportCount: nat)
    ensures var code := TrackingCode(year, reportCount);
            var y := NatToString(year);
            |code| > 4 + |y| &&
            code[..3] == "FB-" && code[3..3 + |y|] == y && code[3 + |y|] == '-' &&
            code[4 + |y|..] == SequenceNumber(reportCount)
  {
    Layout("FB-", NatToString(year), '-', SequenceNumber(reportCount));
  }

  /** Where the pieces of `prefix + y + [dash] + p` sit. */
  lemma Layout(prefix: string, y: string, dash: char, p: string)
    ensures var code := prefix + y + [dash] + p;
            code[..|prefix|] == prefix && code[|prefix|..|prefix| + |y|] == y &&
            code[|prefix| + |y|] == dash && code[|prefix| + |y| + 1..] == p
  {
    var code := prefix + y + [dash] + p;
    assert code == (prefix + y) + ([dash] + p);
    assert code[..|prefix| + |y|] == prefix + y;
  }

  /** Different years or different report counts give different codes. */
  lemma TrackingCodeInjective(y1: nat, c1: nat, y2: nat, c2: nat)
    requires TrackingCode(y1, c1) == TrackingCode(y2, c2)
    ensures y1 == y2 && c1 == c2
  {
    var code := TrackingCode(y1, c1);
    var s1, s2 := NatToString(y1), NatToString(y2);
    TrackingCodeFormat(y1, c1);
    TrackingCodeFormat(y2, c2);
    // The dash after the year sits where neither year has a digit.
    assert forall k :: 0 <= k < |s1| ==> code[3 + k] == s1[k];
    assert forall k :: 0 <= k < |s2| ==> code[3 + k] == s2[k];
    assert !(|s1| < |s2|) by { assert code[3 + |s1|] == '-'; }
    assert !(|s2| < |s1|) by { assert code[3 + |s2|] == '-'; }
    assert s1 == code[3..3 + |s1|] == s2;
    NatToStringInjective(y1, y2);
    SequenceNumberValue(c1);
    SequenceNumberValue(c2);
  }

  /** The report `addFeedbackReport` prepends. */
  function NewReport(input: FeedbackInput, id: string, submittedAt: string, trackingCode: string): (r: FeedbackReport)
    ensures r.id == id && r.submittedAt == submittedAt && r.status == New && r.trackingCode == trackingCode
    ensures r.category == input.category && r.department == input.department && r.severity == input.severity
    ensures r.subject == input.subject && r.description == input.description
    ensures r.incidentDate == input.incidentDate && r.involvedParties == input.involvedParties
    ensures r.hrNotes == input.hrNotes && r.assignedTo == input.assignedTo && r.isAnonymous == input.isAnonymous
  {
    FeedbackReport(id, input.category, input.department, input.severity, input.subject, input.description,
                   input.incidentDate, input.involvedParties, submittedAt, New, input.hrNotes,
                   input.assignedTo, input.isAnonymous, trackingCode)
  }

  /** The alert announcing a new report; it names the category with its first
      hyphen turned into a space, and refers to no budget. */
  function ReportAlert(category: FeedbackCategory, id: string, timestamp: string): (n: Notification)
    ensures n.kind == Alert && !n.read && n.budgetId == None
  {
    Notification(id, Alert, "New Anonymous Report",
                 "A new " + ReplaceFirst(CategorySlug(category), '-', ' ') + " report has been submitted",
                 timestamp, false, None)
  }

  /** `hrNotes || report.hrNotes`: new notes replace the old only when given
      and non-empty. */
  function MergeNotes(current: Option<string>, given: Option<string>): (r: Option<string>)
    ensures given.Some? && given.value != "" ==> r == given
    ensures given.None? || given.value == "" ==> r == current
  {
    if given.Some? && given.value != "" then given else current
  }

  /** `updateFeedbackStatus`. */
  function UpdateFeedback(rs: seq<FeedbackReport>, id: string, status: FeedbackStatus, notes: Option<string>): (r: seq<FeedbackReport>)
    ensures |r| == |rs|
    ensures forall i :: 0 <= i < |rs| && rs[i].id != id ==> r[i] == rs[i]
    ensures forall i :: 0 <= i < |rs| && rs[i].id == id ==>
      r[i].status == status && r[i].hrNotes == MergeNotes(rs[i].hrNotes, notes) &&
      r[i] == rs[i].(status := r[i].status, hrNotes := r[i].hrNotes)
  {
    seq(|rs|, i requires 0 <= i < |rs| =>
      if rs[i].id == id then rs[i].(status := status, hrNotes := MergeNotes(rs[i].hrNotes, notes)) else rs[i])
  }

  function HasStatus(status: FeedbackStatus): FeedbackReport -> bool {
    (x: FeedbackReport) => x.status == status
  }

  function FeedbackByStatus(rs: seq<FeedbackReport>, status: FeedbackStatus): (r: seq<FeedbackReport>)
    ensures forall i :: 0 <= i < |r| ==> r[i].status == status && r[i] in rs
    ensures forall i :: 0 <= i < |rs| && rs[i].status == status ==> rs[i] in r
  {
    Filter(rs, HasStatus(status))
  }

  function NewFeedbackCount(rs: seq<FeedbackReport>): nat {
    |FeedbackByStatus(rs, New)|
  }

  /** Prepending the new report raises the count of new reports by one and
      keeps the order of the reports already there. */
  lemma NewReportCounted(r: FeedbackReport, rs: seq<FeedbackReport>)
    requires r.status == New
    ensures NewFeedbackCount([r] + rs) == NewFeedbackCount(rs) + 1
    ensures FeedbackByStatus([r] + rs, New) == [r] + FeedbackByStatus(rs, New)
  {
    FilterAppend([r], rs, HasStatus(New));
  }

  // ---------------------------------------------------------------------
  // Expense queries

  function ForBudget(budgetId: string): Expense -> bool {
    (e: Expense) => e.budgetId == budgetId
  }

  function BudgetExpenses(es: seq<Expense>, budgetId: string): (r: seq<Expense>)
    ensures forall i :: 0 <= i < |r| ==> r[i].budgetId == budgetId && r[i] in es
    ensures forall i :: 0 <= i < |es| && es[i].budgetId == budgetId ==> es[i] in r
  {
    Filter(es, ForBudget(budgetId))
  }

  /** A newly added expense shows up last among its budget's expenses, after
      the earlier ones in their order, and no other budget's list changes. */
  lemma BudgetExpensesAfterAdd(es: seq<Expense>, e: Expense, budgetId: string)
    ensures BudgetExpenses(es + [e], budgetId) ==
            BudgetExpenses(es, budgetId) + (if e.budgetId == budgetId then [e] else [])
  {
    FilterAppend(es, [e], ForBudget(budgetId));
  }

  // ---------------------------------------------------------------------
  // The store

  class BudgetStore {
    var budgets: seq<Budget>
    var expenses: seq<Expense>
    var anomalies: seq<Anomaly>
    var notifications: seq<Notification>
    var feedbackReports: seq<FeedbackReport>

    /** The store starts from the seed lists. */
    constructor (budgets0: seq<Budget>, expenses0: seq<Expense>, anomalies0: seq<Anomaly>,
                 notifications0: seq<Notification>, reports0: seq<FeedbackReport>)
      ensures budgets == budgets0 && expenses == expenses0 && anomalies == anomalies0
      ensures notifications == notifications0 && feedbackReports == reports0
    {
      budgets, expenses, anomalies := budgets0, expenses0, anomalies0;
      notifications, feedbackReports := notifications0, reports0;
    }

    method AddBudget(input: BudgetInput, id: string, createdAt: string)
      modifies this
      ensures budgets == old(budgets) + [NewBudget(input, id, createdAt)]
      ensures expenses == old(expenses) && anomalies == old(anomalies)
      ensures notifications == old(notifications) && feedbackReports == old(feedbackReports)
    {
      budgets := budgets + [NewBudget(input, id, createdAt)];
    }

    method UpdateBudget(id: string, updates: BudgetPatch)
      modifies this
      ensures budgets == UpdateBudgets(old(budgets), id, updates)
      ensures expenses == old(expenses) && anomalies == old(anomalies)
      ensures notifications == old(notifications) && feedbackReports == old(feedbackReports)
    {
      budgets := UpdateBudgets(budgets, id, updates);
    }

    /** Appends the expense, then walks the budgets: each one with the
        expense's budget id is charged, and when it crosses its allocation
        for the first time an anomaly is appended and an alert prepended. */
    method AddExpense(input: ExpenseInput, expenseId: string, anomalyId: string, notificationId: string,
                      today: string, now: string)
      modifies this
      ensures expenses == old(expenses) + [NewExpense(input, expenseId)]
      ensures budgets == ChargeAll(old(budgets), input.budgetId, input.amount)
      ensures anomalies == old(anomalies) + Detected(old(budgets), input.budgetId, input.amount, anomalyId, today)
      ensures notifications == Alerts(old(budgets), input.budgetId, input.amount, notificationId, now) + old(notifications)
      ensures feedbackReports == old(feedbackReports)
    {
      var prev, anomalies0, notifications0 := budgets, anomalies, notifications;
      var next: seq<Budget> := [];
      var found := anomalies;
      var alerts := notifications;
      var i := 0;
      while i < |prev|
        invariant 0 <= i <= |prev|
        invariant next == ChargeAll(prev[..i], input.budgetId, input.amount)
        invariant found == anomalies0 + Detected(prev[..i], input.budgetId, input.amount, anomalyId, today)
        invariant alerts == Alerts(prev[..i], input.budgetId, input.amount, notificationId, now) + notifications0
        invariant unchanged(this)
      {
        var b := prev[i];
        ScanStep(prev, i, input.budgetId, input.amount, anomalyId, notificationId, today, now,
                 next, found, alerts, anomalies0, notifications0);
        if b.id == input.budgetId && FirstCrossing(b, input.amount) {
          found := found + [AnomalyFor(b, input.amount, anomalyId, today)];
          alerts := [AlertFor(b, notificationId, now)] + alerts;
        }
        next := next + [ChargeIfMatch(b, input.budgetId, input.amount)];
        i := i + 1;
      }
      assert prev[..i] == prev;
      expenses := expenses + [NewExpense(input, expenseId)];
      budgets, anomalies, notifications := next, found, alerts;
    }

    method UpdateAnomalyStatus(id: string, status: AnomalyStatus)
      modifies this
      ensures anomalies == SetAnomalyStatus(old(anomalies), id, status)
      ensures budgets == old(budgets) && expenses == old(expenses)
      ensures notifications == old(notifications) && feedbackReports == old(feedbackReports)
    {
      anomalies := SetAnomalyStatus(anomalies, id, status);
    }

    method MarkNotificationRead(id: string)
      modifies this
      ensures notifications == MarkRead(old(notifications), id)
      ensures budgets == old(budgets) && expenses == old(expenses)
      ensures anomalies == old(anomalies) && feedbackReports == old(feedbackReports)
    {
      notifications := MarkRead(notifications, id);
    }

    method MarkAllNotificationsRead()
      modifies this
      ensures notifications == MarkAllRead(old(notifications))
      ensures UnreadCount(notifications) == 0
      ensures budgets == old(budgets) && expenses == old(expenses)
      ensures anomalies == old(anomalies) && feedbackReports == old(feedbackReports)
    {
      notifications := MarkAllRead(notifications);
      MarkAllReadEffect(old(notifications));
    }

    /** Positive exactly when some notification is unread. */
    function GetUnreadNotificationsCount(): (n: nat)
      reads this
      ensures n <= |notifications|
      ensures n > 0 <==> exists i :: 0 <= i < |notifications| && !notifications[i].read
    {
      CountPositive(notifications, IsUnread);
      UnreadCount(notifications)
    }

    function GetBudgetExpenses(budgetId: string): seq<Expense>
      reads this
    {
      BudgetExpenses(expenses, budgetId)
    }

    function GetTotalAllocated(): real
      reads this
    {
      TotalAllocated(budgets)
    }

    function GetTotalSpent(): real
      reads this
    {
      TotalSpent(budgets)
    }

    /** The number of pending anomalies: positive exactly when one is
        pending. */
    function GetAnomaliesCount(): (n: nat)
      reads this
      ensures n <= |anomalies|
      ensures n > 0 <==> exists i :: 0 <= i < |anomalies| && anomalies[i].status == Pending
    {
      CountPositive(anomalies, IsPending);
      PendingCount(anomalies)
    }

    /** The code the next report will get, from the current report count. */
    function GenerateTrackingCode(year: nat): string
      reads this
    {
      TrackingCode(year, |feedbackReports|)
    }

    /** Prepends a new report with status "new" and the next tracking code,
        prepends an unread alert for it, and returns the code. */
    method AddFeedbackReport(input: FeedbackInput, id: string, submittedAt: string, year: nat,
                             notificationId: string, timestamp: string) returns (code: string)
      modifies this
      ensures code == TrackingCode(year, |old(feedbackReports)|)
      ensures feedbackReports == [NewReport(input, id, submittedAt, code)] + old(feedbackReports)
      ensures notifications == [ReportAlert(input.category, notificationId, timestamp)] + old(notifications)
      ensures NewFeedbackCount(feedbackReports) == NewFeedbackCount(old(feedbackReports)) + 1
      ensures budgets == old(budgets) && expenses == old(expenses) && anomalies == old(anomalies)
    {
      code := GenerateTrackingCode(year);
      var report := NewReport(input, id, submittedAt, code);
      NewReportCounted(report, feedbackReports);
      feedbackReports := [report] + feedbackReports;
      notifications := [ReportAlert(input.category, notificationId, timestamp)] + notifications;
    }

    method UpdateFeedbackStatus(id: string, status: FeedbackStatus, hrNotes: Option<string>)
      modifies this
      ensures feedbackReports == UpdateFeedback(old(feedbackReports), id, status, hrNotes)
      ensures budgets == old(budgets) && expenses == old(expenses)
      ensures anomalies == old(anomalies) && notifications == old(notifications)
    {
      feedbackReports := UpdateFeedback(feedbackReports, id, status, hrNotes);
    }

    function GetFeedbackByStatus(status: FeedbackStatus): seq<FeedbackReport>
      reads this
    {
      FeedbackByStatus(feedbackReports, status)
    }

    /** The number of reports still "new": positive exactly when one is. */
    function GetNewFeedbackCount(): (n: nat)
      reads this
      ensures n <= |feedbackReports|
      ensures n > 0 <==> exists i :: 0 <= i < |feedbackReports| && feedbackReports[i].status == New
    {
      CountPositive(feedbackReports, HasStatus(New));
      NewFeedbackCount(feedbackReports)
    }
  }

  /** Two reports added one after the other get consecutive sequence numbers
      and therefore different codes. */
  method SuccessiveReportsGetDistinctCodes(store: BudgetStore, a: FeedbackInput, b: FeedbackInput, year: nat)
    modifies store
    ensures |store.feedbackReports| == |old(store.feedbackReports)| + 2
    ensures store.feedbackReports[0].trackingCode == TrackingCode(year, |old(store.feedbackReports)| + 1)
    ensures store.feedbackReports[1].trackingCode == TrackingCode(year, |old(store.feedbackReports)|)
    ensures store.feedbackReports[0].trackingCode != store.feedbackReports[1].trackingCode
  {
    var first := store.AddFeedbackReport(a, "r1", "", year, "n1", "");
    var second := store.AddFeedbackReport(b, "r2", "", year, "n2", "");
    if first == second {
      TrackingCodeInjective(year, |old(store.feedbackReports)|, year, |old(store.feedbackReports)| + 1);
    }
  }
}
