/** The domain records of the dashboard. Every string-literal union is a closed
    enumeration; optional properties are `Option`s; amounts are exact reals. */
module Types {
  import opened Seqs

  datatype BudgetStatus = Active | Completed | Exceeded

  datatype Budget = Budget(
    id: string,
    eventName: string,
    team: string,
    allocatedAmount: real,
    spentAmount: real,
    startDate: string,
    endDate: string,
    status: BudgetStatus,
    category: string,
    description: string,
    createdAt: string)

  datatype Role = FinanceHead | HrAdmin | Employee

  datatype User = User(
    id: string,
    email: string,
    name: string,
    role: Role,
    department: string,
    avatar: Option<string>)

  datatype Expense = Expense(
    id: string,
    budgetId: string,
    description: string,
    amount: real,
    date: string,
    submittedBy: string,
    category: string,
    receipt: Option<string>)

  datatype AnomalyStatus = Pending | Reviewed | Approved | Rejected

  /** A percentage computed by a floating-point division: dividing a positive
      overrun by a zero allocation gives `Infinity`. */
  datatype Percentage = Finite(value: real) | PositiveInfinity

  datatype Anomaly = Anomaly(
    id: string,
    budgetId: string,
    eventName: string,
    team: string,
    allocatedAmount: real,
    exceededAmount: real,
    percentageOver: Percentage,
    detectedAt: string,
    status: AnomalyStatus,
    reason: Option<string>)

  /** The `type` property of a notification (`type` is a Dafny keyword). */
  datatype NotificationKind = Warning | Alert | Info

  datatype Notification = Notification(
    id: string,
    kind: NotificationKind,
    title: string,
    message: string,
    timestamp: string,
    read: bool,
    budgetId: Option<string>)

  datatype FeedbackCategory =
    UnfairPromotion | ToxicLeadership | Harassment | Discrimination | Retaliation | Other

  datatype Severity = Low | Medium | High | Critical

  datatype FeedbackStatus = New | UnderReview | Investigating | Resolved | Closed

  datatype FeedbackReport = FeedbackReport(
    id: string,
    category: FeedbackCategory,
    department: string,
    severity: Severity,
    subject: string,
    description: string,
    incidentDate: Option<string>,
    involvedParties: Option<string>,
    submittedAt: string,
    status: FeedbackStatus,
    hrNotes: Option<string>,
    assignedTo: Option<string>,
    isAnonymous: bool,
    trackingCode: string)

  /** The string value of each category, as stored and shown. */
  function CategorySlug(c: FeedbackCategory): string {
    match c
    case UnfairPromotion => "unfair-promotion"
    case ToxicLeadership => "toxic-leadership"
    case Harassment => "harassment"
    case Discrimination => "discrimination"
    case Retaliation => "retaliation"
    case Other => "other"
  }

  /** The string value of each anomaly status. */
  function AnomalyStatusSlug(s: AnomalyStatus): string {
    match s
    case Pending => "pending"
    case Reviewed => "reviewed"
    case Approved => "approved"
    case Rejected => "rejected"
  }
}
