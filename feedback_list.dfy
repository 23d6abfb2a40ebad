/** The HR list of anonymous reports: the tab filter, the tab counts, and the
    dialog that opens a report and saves a new status and notes. */
module FeedbackList {
  import opened Seqs
  import opened Types
  import opened BudgetContext

  /** The statuses the "active" tab shows. */
  predicate IsActiveStatus(s: FeedbackStatus) {
    s == New || s == UnderReview || s == Investigating
  }

  /** The statuses the "resolved" tab shows. */
  predicate IsResolvedStatus(s: FeedbackStatus) {
    s == Resolved || s == Closed
  }

  /** The tab predicate: "all" and every unrecognised tab keep every report. */
  function TabKeeps(tab: string): FeedbackReport -> bool {
    (r: FeedbackReport) =>
      if tab == "all" then true
      else if tab == "active" then IsActiveStatus(r.status)
      else if tab == "resolved" then IsResolvedStatus(r.status)
      else true
  }

  /** `filteredReports`. */
  function FilteredReports(rs: seq<FeedbackReport>, tab: string): (r: seq<FeedbackReport>)
    ensures forall i :: 0 <= i < |r| ==> r[i] in rs && TabKeeps(tab)(r[i])
    ensures forall i :: 0 <= i < |rs| && TabKeeps(tab)(rs[i]) ==> rs[i] in r
  {
    Filter(rs, TabKeeps(tab))
  }

  /** The "all" tab, and any tab the code does not recognise, show the whole
      list in its order. */
  lemma AllTabKeepsEverything(rs: seq<FeedbackReport>, tab: string)
    requires tab != "active" && tab != "resolved"
    ensures FilteredReports(rs, tab) == rs
  {
    FilterAll(rs, TabKeeps(tab));
  }

  /** Every tab keeps the order of the list. */
  lemma FilterKeepsOrder(s: seq<FeedbackReport>, t: seq<FeedbackReport>, tab: string)
    ensures FilteredReports(s + t, tab) == FilteredReports(s, tab) + FilteredReports(t, tab)
  {
    FilterAppend(s, t, TabKeeps(tab));
  }

  /** The five statuses fall into exactly one of the two tabs. */
  lemma StatusPartition(s: FeedbackStatus)
    ensures IsActiveStatus(s) <==> !IsResolvedStatus(s)
  {
  }

  datatype StatusCounts = StatusCounts(all: nat, active: nat, resolved: nat)

  predicate IsActiveReport(r: FeedbackReport) { IsActiveStatus(r.status) }

  predicate IsResolvedReport(r: FeedbackReport) { IsResolvedStatus(r.status) }

  /** `getStatusCounts`: the counts use filters of their own, and each equals
      the length of its tab's list. */
  function GetStatusCounts(rs: seq<FeedbackReport>): (c: StatusCounts)
    ensures c.all == |rs|
    ensures c.active == |FilteredReports(rs, "active")| && c.resolved == |FilteredReports(rs, "resolved")|
  {
    FilterSame(rs, IsActiveReport, TabKeeps("active"));
    FilterSame(rs, IsResolvedReport, TabKeeps("resolved"));
    StatusCounts(|rs|, Count(rs, IsActiveReport), Count(rs, IsResolvedReport))
  }

  /** The active and resolved counts add up to the total. */
  lemma CountsAddUp(rs: seq<FeedbackReport>)
    ensures GetStatusCounts(rs).active + GetStatusCounts(rs).resolved == GetStatusCounts(rs).all
  {
    CountPartition(rs, IsActiveReport, IsResolvedReport);
  }

  /** The state of the report dialog. */
  class ReportDialog {
    var selectedReport: Option<FeedbackReport>
    var newStatus: FeedbackStatus
    var hrNotes: string
    var activeTab: string

    constructor ()
      ensures selectedReport == None && newStatus == New && hrNotes == "" && activeTab == "all"
    {
      selectedReport, newStatus, hrNotes, activeTab := None, New, "", "all";
    }

    /** `openReportDialog`: the dialog starts from the report's own status
        and notes. */
    method Open(report: FeedbackReport)
      modifies this
      ensures selectedReport == Some(report) && newStatus == report.status
      ensures hrNotes == report.hrNotes.GetOr("") && activeTab == old(activeTab)
    {
      selectedReport := Some(report);
      newStatus := report.status;
      hrNotes := report.hrNotes.GetOr("");
    }

    method SetNewStatus(s: FeedbackStatus)
      modifies this
      ensures newStatus == s && selectedReport == old(selectedReport) && hrNotes == old(hrNotes) && activeTab == old(activeTab)
    {
      newStatus := s;
    }

    method SetNotes(notes: string)
      modifies this
      ensures hrNotes == notes && selectedReport == old(selectedReport) && newStatus == old(newStatus) && activeTab == old(activeTab)
    {
      hrNotes := notes;
    }

    /** Closing the dialog or pressing Cancel. */
    method Close()
      modifies this
      ensures selectedReport == None && newStatus == old(newStatus) && hrNotes == old(hrNotes) && activeTab == old(activeTab)
    {
      selectedReport := None;
    }

    /** `handleUpdateStatus`: with a report selected, store the new status and
        notes against its id and close the dialog; with none, do nothing. */
    method Save(store: BudgetStore)
      modifies this, store
      ensures old(selectedReport).Some? ==>
        store.feedbackReports == UpdateFeedback(old(store.feedbackReports), old(selectedReport).value.id, old(newStatus), Some(old(hrNotes))) &&
        selectedReport == None
      ensures old(selectedReport).None? ==>
        store.feedbackReports == old(store.feedbackReports) && selectedReport == None
      ensures newStatus == old(newStatus) && hrNotes == old(hrNotes) && activeTab == old(activeTab)
      ensures store.budgets == old(store.budgets) && store.expenses == old(store.expenses)
      ensures store.anomalies == old(store.anomalies) && store.notifications == old(store.notifications)
    {
      if selectedReport.Some? {
        store.UpdateFeedbackStatus(selectedReport.value.id, newStatus, Some(hrNotes));
        selectedReport := None;
      }
    }
  }

  predicate UniqueReportIds(rs: seq<FeedbackReport>) {
    forall i, j :: 0 <= i < j < |rs| ==> rs[i].id != rs[j].id
  }

  /** Opening a report of the list and saving without an edit changes
      nothing: the status is the same and the seeded notes merge back into
      the report's own. */
  lemma OpenThenSaveIsNoOp(rs: seq<FeedbackReport>, k: nat)
    requires UniqueReportIds(rs) && k < |rs|
    ensures UpdateFeedback(rs, rs[k].id, rs[k].status, Some(rs[k].hrNotes.GetOr(""))) == rs
  {
    var r := UpdateFeedback(rs, rs[k].id, rs[k].status, Some(rs[k].hrNotes.GetOr("")));
    assert forall i :: 0 <= i < |rs| ==> r[i] == rs[i];
  }

  /** Notes cannot be cleared from the dialog: an emptied notes field keeps
      the notes the report had. */
  lemma NotesCannotBeCleared(rs: seq<FeedbackReport>, id: string, status: FeedbackStatus)
    ensures forall i :: 0 <= i < |rs| ==> UpdateFeedback(rs, id, status, Some(""))[i].hrNotes == rs[i].hrNotes
  {
  }
}
