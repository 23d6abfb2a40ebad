/** The anomaly cards: the badge icon and colour chosen from the status string,
    and the action buttons each status offers. The buttons are the only place
    the status graph of an anomaly exists; the store itself accepts any
    status. */
module AnomalyList {
  import opened Types
  import opened BudgetContext

  datatype Icon = Clock | FileText | CheckCircle | XCircle

  /** `getStatusIcon`: a switch on the status string with a default branch. */
  function StatusIcon(status: string): Icon {
    if status == "pending" then Clock
    else if status == "reviewed" then FileText
    else if status == "approved" then CheckCircle
    else if status == "rejected" then XCircle
    else Clock
  }

  /** `getStatusColor`. */
  function StatusColor(status: string): string {
    if status == "pending" then "bg-warning/10 text-warning border-warning/20"
    else if status == "reviewed" then "bg-primary/10 text-primary border-primary/20"
    else if status == "approved" then "bg-success/10 text-success border-success/20"
    else if status == "rejected" then "bg-destructive/10 text-destructive border-destructive/20"
    else "bg-muted text-muted-foreground"
  }

  /** Each of the four statuses gets its own colour and every other string the
      muted one, which no status uses; the icon of an unknown string is the
      pending clock. */
  lemma StatusStylesTotal(s: AnomalyStatus, t: AnomalyStatus, other: string)
    requires other !in {"pending", "reviewed", "approved", "rejected"}
    ensures s != t ==> StatusColor(AnomalyStatusSlug(s)) != StatusColor(AnomalyStatusSlug(t))
    ensures StatusColor(other) == "bg-muted text-muted-foreground"
    ensures StatusColor(AnomalyStatusSlug(s)) != StatusColor(other)
    ensures StatusIcon(other) == Clock
    ensures StatusIcon(AnomalyStatusSlug(s)) == match s
      case Pending => Clock
      case Reviewed => FileText
      case Approved => CheckCircle
      case Rejected => XCircle
  {
  }

  /** The action buttons of a card. */
  datatype Action = MarkReviewed | Approve | Reject

  function Label(a: Action): string {
    match a
    case MarkReviewed => "Mark as Reviewed"
    case Approve => "Approve"
    case Reject => "Reject"
  }

  /** The three buttons read differently. */
  lemma LabelsDistinct(a: Action, b: Action)
    ensures a != b ==> Label(a) != Label(b)
  {
  }

  /** The status a button asks the store for. */
  function Target(a: Action): AnomalyStatus {
    match a
    case MarkReviewed => Reviewed
    case Approve => Approved
    case Reject => Rejected
  }

  /** The buttons shown for a status, in the order they appear. */
  function OfferedActions(s: AnomalyStatus): seq<Action> {
    match s
    case Pending => [MarkReviewed, Approve, Reject]
    case Reviewed => [Approve, Reject]
    case Approved => []
    case Rejected => []
  }

  /** The captions of a card's buttons, in the order they appear: one per
      button, and no two alike, so each caption names one move. */
  function ButtonLabels(s: AnomalyStatus): (ls: seq<string>)
    ensures |ls| == |OfferedActions(s)|
    ensures forall i :: 0 <= i < |ls| ==> ls[i] == Label(OfferedActions(s)[i])
    ensures forall i, j :: 0 <= i < |ls| && 0 <= j < |ls| && i != j ==> ls[i] != ls[j]
  {
    var acts := OfferedActions(s);
    forall i, j | 0 <= i < |acts| && 0 <= j < |acts| && i != j
      ensures Label(acts[i]) != Label(acts[j])
    {
      LabelsDistinct(acts[i], acts[j]);
    }
    seq(|acts|, i requires 0 <= i < |acts| => Label(acts[i]))
  }

  /** The statuses a card can move to. */
  function OfferedTargets(s: AnomalyStatus): seq<AnomalyStatus> {
    var acts := OfferedActions(s);
    seq(|acts|, i requires 0 <= i < |acts| => Target(acts[i]))
  }

  /** How far along the review an anomaly is. */
  function Rank(s: AnomalyStatus): nat {
    match s
    case Pending => 0
    case Reviewed => 1
    case Approved => 2
    case Rejected => 2
  }

  /** What each status offers: pending offers reviewed, approved and rejected;
      reviewed offers approved and rejected; approved and rejected offer
      nothing. */
  lemma Offers(s: AnomalyStatus)
    ensures s == Pending ==> OfferedTargets(s) == [Reviewed, Approved, Rejected]
    ensures s == Reviewed ==> OfferedTargets(s) == [Approved, Rejected]
    ensures OfferedTargets(s) == [] <==> s == Approved || s == Rejected
  {
  }

  /** Every offered move goes strictly forward: no status offers itself and
      nothing offers pending. */
  lemma OffersGoForward(s: AnomalyStatus, t: AnomalyStatus)
    requires t in OfferedTargets(s)
    ensures Rank(t) > Rank(s)
    ensures t != s && t != Pending
  {
  }

  /** A sequence of statuses in which each one was offered by the previous. */
  predicate FollowsOffers(path: seq<AnomalyStatus>) {
    forall k :: 0 < k < |path| ==> path[k] in OfferedTargets(path[k - 1])
  }

  /** Along such a path the rank grows by at least one per step. */
  lemma {:induction false} PathRank(path: seq<AnomalyStatus>)
    requires FollowsOffers(path) && |path| > 0
    ensures Rank(path[|path| - 1]) >= Rank(path[0]) + |path| - 1
  {
    if |path| > 1 {
      var init := path[..|path| - 1];
      assert FollowsOffers(init) by {
        forall k | 0 < k < |init| ensures init[k] in OfferedTargets(init[k - 1]) {
          assert init[k] == path[k] && init[k - 1] == path[k - 1];
        }
      }
      PathRank(init);
      OffersGoForward(path[|path| - 2], path[|path| - 1]);
    }
  }

  /** Following the buttons, an anomaly takes at most two steps and never
      comes back to pending. */
  lemma PathsShortAndForward(path: seq<AnomalyStatus>)
    requires FollowsOffers(path)
    ensures |path| <= 3
    ensures forall k :: 0 < k < |path| ==> path[k] != Pending
  {
    if |path| > 0 {
      PathRank(path);
    }
    forall k | 0 < k < |path| ensures path[k] != Pending {
      OffersGoForward(path[k - 1], path[k]);
    }
  }

  /** Pressing an offered button on a card: the store's status update with
      that card's id. */
  function Press(anomalies: seq<Anomaly>, card: Anomaly, a: Action): (r: seq<Anomaly>)
    requires a in OfferedActions(card.status)
    ensures |r| == |anomalies|
    ensures forall i :: 0 <= i < |r| && anomalies[i].id == card.id ==> r[i].status == Target(a) && Rank(r[i].status) > Rank(card.status)
    ensures forall i :: 0 <= i < |r| && anomalies[i].id != card.id ==> r[i] == anomalies[i]
  {
    SetAnomalyStatus(anomalies, card.id, Target(a))
  }
}
