/** The report preview: the exceeded budgets, one summary row per exceeded
    budget, the total overrun, and the status histogram of the anomalies with
    the empty slices dropped. */
module ReportPreview {
  import opened Seqs
  import opened Strings
  import opened Types
  import opened BudgetContext

  predicate IsExceeded(b: Budget) { b.status == Exceeded }

  /** `exceededBudgets`. */
  function ExceededBudgets(bs: seq<Budget>): (r: seq<Budget>)
    ensures forall i :: 0 <= i < |r| ==> r[i].status == Exceeded && r[i] in bs
    ensures forall i :: 0 <= i < |bs| && bs[i].status == Exceeded ==> bs[i] in r
  {
    Filter(bs, IsExceeded)
  }

  lemma ExceededBudgetsOrder(s: seq<Budget>, t: seq<Budget>)
    ensures ExceededBudgets(s + t) == ExceededBudgets(s) + ExceededBudgets(t)
  {
    FilterAppend(s, t, IsExceeded);
  }

  /** `name.split(" ").slice(0, 2).join(" ")`. */
  function ShortName(name: string): string {
    var words := Split(name, ' ');
    Join(words[..if |words| < 2 then |words| else 2], " ")
  }

  /** The short name is the event name up to its second space: a prefix of
      the name with at most one space, which is the whole name or is followed
      in the name by a space, and then holds exactly one. */
  lemma ShortNameIsPrefix(name: string)
    ensures ShortNameShape(name, ShortName(name))
    ensures ' ' !in name ==> ShortName(name) == name
  {
    var words := Split(name, ' ');
    var sn := ShortName(name);
    assert [' '] == " ";
    if |words| == 1 {
      assert words[..1] == words;
      OccurrencesAbsent(words[0], ' ');
    } else {
      assert words[..2] == [words[0], words[1]];
      JoinTwo(words[0], words[1], " ");
      OneSpace(words[0], words[1]);
      if |words| == 2 {
        assert words[..2] == words;
      } else {
        JoinSplit(words, " ");
        assert name == sn + " " + Join(words[2..], " ");
        assert name[..|sn|] == sn && name[|sn|] == ' ';
      }
    }
    if ' ' !in name {
      SplitWithoutSeparator(name, ' ');
    }
  }

  lemma JoinTwo(a: string, b: string, sep: string)
    ensures Join([a, b], sep) == a + sep + b
  {
    assert [a, b][1..] == [b];
  }

  /** Joining three or more pieces: the first two, then the rest. */
  lemma JoinSplit(parts: seq<string>, sep: string)
    requires |parts| >= 3
    ensures Join(parts, sep) == parts[0] + sep + parts[1] + sep + Join(parts[2..], sep)
  {
    assert parts[1..][0] == parts[1] && parts[1..][1..] == parts[2..];
  }

  lemma OneSpace(a: string, b: string)
    requires ' ' !in a && ' ' !in b
    ensures Occurrences(a + " " + b, ' ') == 1
  {
    OccurrencesAppend(a + " ", b, ' ');
    OccurrencesAppend(a, " ", ' ');
    OccurrencesAbsent(a, ' ');
    OccurrencesAbsent(b, ' ');
  }

  /** `short` is what `name.split(" ").slice(0, 2).join(" ")` gives: a prefix of
      `name` with at most one space that is either all of `name`, or stops at
      the second space. */
  predicate ShortNameShape(name: string, short: string) {
    short <= name && Occurrences(short, ' ') <= 1 &&
    (short == name || (|short| < |name| && name[|short|] == ' ' && Occurrences(short, ' ') == 1))
  }

  datatype SummaryRow = SummaryRow(name: string, allocation: real, spent: real, exceeded: real)

  function Row(b: Budget): SummaryRow {
    SummaryRow(ShortName(b.eventName), b.allocatedAmount, b.spentAmount, b.spentAmount - b.allocatedAmount)
  }

  /** `summaryData`: one row per exceeded budget, in order, carrying its
      allocation, its spending and the difference. */
  function SummaryData(bs: seq<Budget>): (r: seq<SummaryRow>)
    ensures |r| == |ExceededBudgets(bs)|
    ensures forall i :: 0 <= i < |r| ==>
      var b := ExceededBudgets(bs)[i];
      r[i].allocation == b.allocatedAmount && r[i].spent == b.spentAmount &&
      r[i].exceeded == r[i].spent - r[i].allocation && ShortNameShape(b.eventName, r[i].name)
  {
    var ex := ExceededBudgets(bs);
    forall i | 0 <= i < |ex| ensures ShortNameShape(ex[i].eventName, ShortName(ex[i].eventName)) {
      ShortNameIsPrefix(ex[i].eventName);
    }
    seq(|ex|, i requires 0 <= i < |ex| => Row(ex[i]))
  }

  function Overrun(b: Budget): real { b.spentAmount - b.allocatedAmount }

  /** `totalExceeded`. */
  function TotalExceeded(bs: seq<Budget>): real {
    Sum(ExceededBudgets(bs), Overrun)
  }

  /** The total overrun is what the exceeded budgets spent minus what they
      were given. */
  lemma TotalExceededIsDifference(bs: seq<Budget>)
    ensures TotalExceeded(bs) == TotalSpent(ExceededBudgets(bs)) - TotalAllocated(ExceededBudgets(bs))
  {
    SumDifference(ExceededBudgets(bs), Spent, Allocated, Overrun);
  }

  /** When every budget is exceeded exactly when overspent, each summary row
      has a positive overrun, and so does the total whenever some budget is
      exceeded. */
  lemma {:induction false} OverrunPositive(bs: seq<Budget>)
    requires forall i :: 0 <= i < |bs| ==> Consistent(bs[i])
    ensures TotalExceeded(bs) >= 0.0
    ensures ExceededBudgets(bs) != [] ==> TotalExceeded(bs) > 0.0
  {
    if bs != [] {
      var n := |bs|;
      var init, last := bs[..n - 1], bs[n - 1];
      assert bs == init + [last];
      ExceededBudgetsOrder(init, [last]);
      OverrunPositive(init);
      var tail := ExceededBudgets([last]);
      assert tail == if last.status == Exceeded then [last] else [];
      SumAppend(ExceededBudgets(init), tail, Overrun);
      if tail != [] {
        assert Sum(tail, Overrun) == Overrun(last);
      }
    }
  }

  /** One slice of the status chart. */
  datatype Slice = Slice(name: string, value: nat, color: string)

  predicate HasAnomalyStatus(s: AnomalyStatus, a: Anomaly) { a.status == s }

  function StatusCount(anomalies: seq<Anomaly>, s: AnomalyStatus): nat {
    Count(anomalies, a => HasAnomalyStatus(s, a))
  }

  function AllSlices(anomalies: seq<Anomaly>): seq<Slice> {
    [Slice("Pending", StatusCount(anomalies, Pending), "#eab308"),
     Slice("Reviewed", StatusCount(anomalies, Reviewed), "#6366f1"),
     Slice("Approved", StatusCount(anomalies, Approved), "#22c55e"),
     Slice("Rejected", StatusCount(anomalies, Rejected), "#ef4444")]
  }

  predicate NonEmptySlice(d: Slice) { d.value > 0 }

  /** `statusData`: the four slices in fixed order, the empty ones dropped. */
  function StatusData(anomalies: seq<Anomaly>): (r: seq<Slice>)
    ensures |r| <= 4
    ensures forall i :: 0 <= i < |r| ==> r[i].value > 0 && r[i] in AllSlices(anomalies)
    ensures forall i :: 0 <= i < 4 && AllSlices(anomalies)[i].value > 0 ==> AllSlices(anomalies)[i] in r
  {
    Filter(AllSlices(anomalies), NonEmptySlice)
  }

  /** A slice the chart draws: itself when it is not empty, nothing otherwise. */
  function Drawn(d: Slice): seq<Slice> {
    if d.value > 0 then [d] else []
  }

  /** The chart keeps the fixed order Pending, Reviewed, Approved, Rejected,
      each status at most once, and leaves out exactly the empty ones. */
  lemma StatusDataInOrder(anomalies: seq<Anomaly>)
    ensures var ds := AllSlices(anomalies);
            StatusData(anomalies) == Drawn(ds[0]) + Drawn(ds[1]) + Drawn(ds[2]) + Drawn(ds[3])
  {
    var ds := AllSlices(anomalies);
    assert ds == [ds[0]] + [ds[1]] + [ds[2]] + [ds[3]];
    FilterAppend([ds[0]] + [ds[1]] + [ds[2]], [ds[3]], NonEmptySlice);
    FilterAppend([ds[0]] + [ds[1]], [ds[2]], NonEmptySlice);
    FilterAppend([ds[0]], [ds[1]], NonEmptySlice);
    FilterSingle(ds[0]);
    FilterSingle(ds[1]);
    FilterSingle(ds[2]);
    FilterSingle(ds[3]);
  }

  lemma FilterSingle(d: Slice)
    ensures Filter([d], NonEmptySlice) == Drawn(d)
  {
    assert [d][1..] == [];
  }

  function SliceTotal(ds: seq<Slice>): nat {
    if ds == [] then 0 else ds[0].value + SliceTotal(ds[1..])
  }

  /** Dropping empty slices does not change the total. */
  lemma {:induction false} DropEmptyKeepsTotal(ds: seq<Slice>)
    ensures SliceTotal(Filter(ds, NonEmptySlice)) == SliceTotal(ds)
  {
    if ds != [] {
      DropEmptyKeepsTotal(ds[1..]);
      var rest := Filter(ds[1..], NonEmptySlice);
      if ds[0].value > 0 {
        assert Filter(ds, NonEmptySlice) == [ds[0]] + rest;
        assert ([ds[0]] + rest)[1..] == rest;
      } else {
        assert Filter(ds, NonEmptySlice) == rest;
      }
    }
  }

  /** Every anomaly has one of the four statuses, so the four counts add up to
      the number of anomalies. */
  lemma {:induction false} StatusCountsAddUp(anomalies: seq<Anomaly>)
    ensures StatusCount(anomalies, Pending) + StatusCount(anomalies, Reviewed) +
            StatusCount(anomalies, Approved) + StatusCount(anomalies, Rejected) == |anomalies|
  {
    if anomalies != [] {
      StatusCountsAddUp(anomalies[1..]);
    }
  }

  /** The chart's values add up to the number of anomalies. */
  lemma StatusDataTotal(anomalies: seq<Anomaly>)
    ensures SliceTotal(StatusData(anomalies)) == |anomalies|
  {
    DropEmptyKeepsTotal(AllSlices(anomalies));
    StatusCountsAddUp(anomalies);
    var ds := AllSlices(anomalies);
    assert SliceTotal(ds[3..]) == ds[3].value by {
      assert ds[3..][1..] == [];
    }
    assert SliceTotal(ds[2..]) == ds[2].value + SliceTotal(ds[3..]) by {
      assert ds[2..][1..] == ds[3..];
    }
    assert SliceTotal(ds[1..]) == ds[1].value + SliceTotal(ds[2..]) by {
      assert ds[1..][1..] == ds[2..];
    }
  }

  /** "Pending Review": the number of pending anomalies, the store's own
      pending count and, when there is one, the value of the first slice. */
  function PendingReview(anomalies: seq<Anomaly>): (n: nat)
    ensures n > 0 ==> |StatusData(anomalies)| > 0 && StatusData(anomalies)[0] == Slice("Pending", n, "#eab308")
  {
    var ds := AllSlices(anomalies);
    assert Filter(ds, NonEmptySlice) == (if ds[0].value > 0 then [ds[0]] else []) + Filter(ds[1..], NonEmptySlice);
    StatusCount(anomalies, Pending)
  }

  lemma PendingReviewIsStoreCount(anomalies: seq<Anomaly>)
    ensures PendingReview(anomalies) == PendingCount(anomalies)
  {
    assert StatusCount(anomalies, Pending) == PendingCount(anomalies) by {
      PendingFiltersAgree(anomalies);
    }
  }

  lemma {:induction false} PendingFiltersAgree(anomalies: seq<Anomaly>)
    ensures StatusCount(anomalies, Pending) == PendingCount(anomalies)
  {
    if anomalies != [] {
      PendingFiltersAgree(anomalies[1..]);
    }
  }
}
